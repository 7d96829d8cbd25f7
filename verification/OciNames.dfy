/** Cost report names and numbers, and the bucket seen through a listing that answers only "first object at or after
    this name". */
module OciNames {
  import opened Calendar
  import opened Domain
  import opened Numerals

  const PREFIX := "reports/cost-csv/"
  const MAX_UINT64: nat := 0xFFFF_FFFF_FFFF_FFFF

  datatype Report = Report(number: nat, suffix: string, modified: Time)

  function Name(r: Report): string { PREFIX + Padded(r.number) + r.suffix }

  function StartName(number: nat): string { PREFIX + Padded(number) }

  predicate GoodSuffix(s: string) { (s != "" && s[0] == '-') || s in {"", ".gz", ".csv", ".csv.gz"} }

  /** A static bucket: distinct numbers of up to 16 digits, modified no earlier the higher the number. */
  ghost predicate Bucket(reports: seq<Report>) {
    && (forall i :: 0 <= i < |reports| ==> reports[i].number < SIXTEEN_DIGITS && GoodSuffix(reports[i].suffix))
    && (forall i, j :: 0 <= i < j < |reports| ==>
       reports[i].number < reports[j].number && reports[i].modified <= reports[j].modified)
  }

  predicate Recent(r: Report, since: Time) { r.modified >= since }

  /** firstCostReportAtOrAfter, when the listing succeeds. */
  function First(reports: seq<Report>, start: string): Option<Report> {
    if reports == [] then None
    else if !Before(Name(reports[0]), start) then Some(reports[0])
    else First(reports[1..], start)
  }

  // ---- names and numbers -----------------------------------------------------------------

  function CutAtDash(s: string): string {
    if s == "" || s[0] == '-' then "" else [s[0]] + CutAtDash(s[1..])
  }

  function TrimSuffix(s: string, suffix: string): string {
    if |suffix| <= |s| && s[|s| - |suffix|..] == suffix then s[..|s| - |suffix|] else s
  }

  function CostReportNumber(name: string): Option<nat> {
    if !(PREFIX <= name) then None
    else
      var base := TrimSuffix(TrimSuffix(CutAtDash(name[|PREFIX|..]), ".gz"), ".csv");
      if base == "" || !AllDigits(base) || Value(base) > MAX_UINT64 then None else Some(Value(base))
  }

  lemma {:induction false} CutDigits(d: string, s: string)
    requires AllDigits(d)
    ensures CutAtDash(d + s) == d + CutAtDash(s)
  {
    if d == "" {
      assert d + s == s;
    } else {
      assert (d + s)[1..] == d[1..] + s;
      CutDigits(d[1..], s);
    }
  }

  lemma {:induction false} CutNothing(s: string)
    requires '-' !in s
    ensures CutAtDash(s) == s
  {
    if s != "" {
      CutNothing(s[1..]);
    }
  }

  lemma TrimDigits(d: string, suffix: string)
    requires AllDigits(d) && suffix != "" && suffix[0] == '.'
    ensures TrimSuffix(d, suffix) == d && TrimSuffix(d + suffix, suffix) == d
  {
    if |suffix| <= |d| {
      assert d[|d| - |suffix|..][0] == d[|d| - |suffix|];
    }
    assert (d + suffix)[|d|..] == suffix && (d + suffix)[..|d|] == d;
  }

  /** A well-formed name reads back as its number. */
  lemma NumberOfName(r: Report)
    requires r.number < SIXTEEN_DIGITS && GoodSuffix(r.suffix)
    ensures CostReportNumber(Name(r)) == Some(r.number)
  {
    hide Value, Padded, Decimal, Pow10, TrimSuffix;
    var d := Padded(r.number);
    PaddedDenotes(r.number);
    CutDigits(d, r.suffix);
    assert Name(r)[|PREFIX|..] == d + r.suffix;
    assert CutAtDash(r.suffix) in {"", ".gz", ".csv", ".csv.gz"} by {
      if r.suffix == "" || r.suffix[0] != '-' { CutNothing(r.suffix); }
    }
    TrimDigits(d, ".gz");
    TrimDigits(d, ".csv");
    assert d + "" == d;
    TrimTwo(d);
  }

  lemma TrimTwo(d: string)
    requires AllDigits(d)
    ensures TrimSuffix(d + ".csv.gz", ".gz") == d + ".csv" && TrimSuffix(d + ".csv", ".gz") == d + ".csv"
  {
    assert (d + ".csv.gz")[|d| + 4..] == ".gz" && (d + ".csv.gz")[..|d| + 4] == d + ".csv";
    assert (d + ".csv")[|d| + 1..] == "csv";
  }

  /** Up to 16 digits, names are ordered like numbers: a report is before the start name of m exactly when its number is
      below m. */
  lemma NameOrder(r: Report, m: nat)
    requires r.number < SIXTEEN_DIGITS && m < SIXTEEN_DIGITS
    ensures Before(Name(r), StartName(m)) <==> r.number < m
  {
    hide Value, Padded, Before;
    var a, b := Padded(r.number), Padded(m);
    PaddedDenotes(r.number);
    PaddedDenotes(m);
    assert Name(r) == PREFIX + (a + r.suffix);
    BeforeCommon(PREFIX, a + r.suffix, b);
    if r.number == m {
      NotBeforePrefix(a, r.suffix);
    } else {
      assert b + "" == b;
      FixedWidthOrder(a, b, r.suffix, "");
    }
  }

  /** A start name of 17 digits sorts among the 16-digit ones by its first 16. */
  lemma NameOrderWide(r: Report, m: nat)
    requires r.number < SIXTEEN_DIGITS <= m < 10 * SIXTEEN_DIGITS && m / 10 < r.number
    ensures !Before(Name(r), StartName(m))
  {
    hide Value, Before, Pow10;
    var a, b := Padded(r.number), Decimal(m / 10);
    PaddedDenotes(r.number);
    ValueOfDecimal(m / 10);
    WidthPower();
    DecimalLength(m / 10, WIDTH);
    DecimalAtLeast(m / 10, WIDTH - 1);
    assert Name(r) == PREFIX + (a + r.suffix) && StartName(m) == PREFIX + (b + [Digit(m % 10)]);
    BeforeCommon(PREFIX, a + r.suffix, b + [Digit(m % 10)]);
    FixedWidthOrder(a, b, r.suffix, [Digit(m % 10)]);
  }

  /** The bucket lists its reports in the order of their names. */
  lemma ListedInNameOrder(a: Report, b: Report)
    requires a.number < b.number < SIXTEEN_DIGITS
    ensures Before(Name(a), Name(b))
  {
    hide Value, Padded, Before;
    PaddedDenotes(a.number);
    PaddedDenotes(b.number);
    assert Name(a) == PREFIX + (Padded(a.number) + a.suffix) && Name(b) == PREFIX + (Padded(b.number) + b.suffix);
    BeforeCommon(PREFIX, Padded(a.number) + a.suffix, Padded(b.number) + b.suffix);
    FixedWidthOrder(Padded(a.number), Padded(b.number), a.suffix, b.suffix);
  }

  // ---- the listing in terms of numbers -----------------------------------------------------

  function AtOrAfter(reports: seq<Report>, m: nat): Option<Report> {
    if reports == [] then None
    else if reports[0].number >= m then Some(reports[0])
    else AtOrAfter(reports[1..], m)
  }

  lemma {:induction false} FirstIsAtOrAfter(reports: seq<Report>, m: nat)
    requires Bucket(reports) && m < SIXTEEN_DIGITS
    ensures First(reports, StartName(m)) == AtOrAfter(reports, m)
  {
    hide Before, Name, StartName;
    if reports != [] {
      NameOrder(reports[0], m);
      FirstIsAtOrAfter(reports[1..], m);
    }
  }

  lemma {:induction false} AtOrAfterIsLeast(reports: seq<Report>, m: nat)
    requires Bucket(reports)
    ensures match AtOrAfter(reports, m)
            case None => forall q :: q in reports ==> q.number < m
            case Some(r) =>
              r in reports && r.number >= m && forall q :: q in reports && q.number >= m ==> r.number <= q.number
  {
    if reports != [] {
      if reports[0].number < m {
        AtOrAfterIsLeast(reports[1..], m);
      }
    }
  }

  lemma {:induction false} FirstListed(reports: seq<Report>, start: string)
    ensures First(reports, start).Some? ==> First(reports, start).value in reports
  {
    hide Before, Name;
    if reports != [] {
      FirstListed(reports[1..], start);
    }
  }

  function IndexOf(reports: seq<Report>, r: Report): (i: nat)
    requires r in reports
    ensures i < |reports| && reports[i] == r
  {
    if reports[0] == r then 0 else 1 + IndexOf(reports[1..], r)
  }

  lemma NumberOfListed(reports: seq<Report>, r: Report)
    requires Bucket(reports) && r in reports
    ensures CostReportNumber(Name(r)) == Some(r.number) && r.number < SIXTEEN_DIGITS
  {
    hide CostReportNumber, Name;
    NumberOfName(r);
  }

  lemma WithinEnds(reports: seq<Report>, r: Report)
    requires Bucket(reports) && r in reports
    ensures reports[0].number <= r.number <= reports[|reports| - 1].number
  {
    var i := IndexOf(reports, r);
  }

  lemma FirstOfAll(reports: seq<Report>)
    ensures First(reports, "") == if reports == [] then None else Some(reports[0])
  {}

  lemma NumberOfFirst(reports: seq<Report>)
    requires Bucket(reports) && reports != []
    ensures CostReportNumber(Name(reports[0])) == Some(reports[0].number) && reports[0].number < SIXTEEN_DIGITS
  {
    NumberOfName(reports[0]);
  }

  lemma NumberOfFound(reports: seq<Report>, start: string)
    requires Bucket(reports) && First(reports, start).Some?
    ensures var r := First(reports, start).value;
            && r in reports && CostReportNumber(Name(r)) == Some(r.number)
            && reports[0].number <= r.number < SIXTEEN_DIGITS
  {
    hide First, Name, CostReportNumber;
    FirstListed(reports, start);
    NumberOfName(First(reports, start).value);
    WithinEnds(reports, First(reports, start).value);
  }
}
