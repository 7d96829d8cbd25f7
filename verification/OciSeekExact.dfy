/** When the search for the first cost report answers, and when its answer is the first recent one. */
module OciSeekExact {
  import opened Calendar
  import opened Domain
  import opened Numerals
  import opened OciNames
  import opened OciSeek

  // ---- numberings ------------------------------------------------------------------------------

  function Numbers(reports: seq<Report>): (numbers: seq<nat>)
    ensures |numbers| == |reports| && forall i :: 0 <= i < |reports| ==> numbers[i] == reports[i].number
  {
    if reports == [] then [] else [reports[0].number] + Numbers(reports[1..])
  }

  ghost predicate Ascending(numbers: seq<nat>) {
    && (forall i :: 0 <= i < |numbers| ==> numbers[i] < SIXTEEN_DIGITS)
    && (forall i, j :: 0 <= i < j < |numbers| ==> numbers[i] < numbers[j])
  }

  ghost predicate Stamped(reports: seq<Report>) { forall r :: r in reports ==> !IsZero(r.modified) }

  /** The first number not below m. */
  function At(numbers: seq<nat>, m: nat): Option<nat> {
    if numbers == [] then None else if numbers[0] >= m then Some(numbers[0]) else At(numbers[1..], m)
  }

  lemma {:induction false} AtOfReports(reports: seq<Report>, m: nat)
    ensures match AtOrAfter(reports, m)
            case None => At(Numbers(reports), m) == None
            case Some(r) => At(Numbers(reports), m) == Some(r.number)
  {
    if reports != [] {
      assert Numbers(reports)[1..] == Numbers(reports[1..]);
      AtOfReports(reports[1..], m);
    }
  }

  lemma {:induction false} AtIsLeast(numbers: seq<nat>, m: nat)
    requires Ascending(numbers)
    ensures match At(numbers, m)
            case None => forall x :: x in numbers ==> x < m
            case Some(n) => n in numbers && m <= n && forall x :: x in numbers && m <= x ==> n <= x
  {
    if numbers != [] {
      assert forall x :: x in numbers ==> x == numbers[0] || x in numbers[1..];
      if numbers[0] < m {
        AtIsLeast(numbers[1..], m);
      }
    }
  }

  lemma NumberOfReport(reports: seq<Report>, n: nat)
    ensures n in Numbers(reports) <==> exists r :: r in reports && r.number == n
  {
    if r :| r in reports && r.number == n {
      var i :| 0 <= i < |reports| && reports[i] == r;
      assert Numbers(reports)[i] == n;
    }
    if n in Numbers(reports) {
      var i :| 0 <= i < |reports| && Numbers(reports)[i] == n;
      assert reports[i] in reports;
    }
  }

  ghost predicate NoneBetween(numbers: seq<nat>, low: nat, high: nat) {
    forall x :: x in numbers ==> x <= low || high <= x
  }

  // ---- one probe ---------------------------------------------------------------------------------

  /** The search interval: an old report below, a recent one above. */
  ghost predicate Bracket(reports: seq<Report>, since: Time, low: nat, high: nat) {
    Bucket(reports) && Stamped(reports) && IsReport(reports, low, since, false) && IsReport(reports, high, since, true)
  }

  function Search(reports: seq<Report>, since: Time, low: nat, high: nat, probes: nat): Seek {
    BinarySearch(reports, since, low, high, high, probes)
  }

  /** The report that a probe of a bracket lands on. */
  lemma Landing(reports: seq<Report>, since: Time, low: nat, high: nat) returns (r: Report)
    requires Bracket(reports, since, low, high) && low + 1 < high
    ensures var mid := low + (high - low) / 2;
            && First(reports, StartName(mid)) == Some(r) && At(Numbers(reports), mid) == Some(r.number)
            && r in reports && mid <= r.number <= high && CostReportNumber(Name(r)) == Some(r.number)
    ensures r.number == high ==> Recent(r, since)
  {
    hide First, StartName, Name, CostReportNumber, Bucket, AtOrAfter, At, IsReport, Stamped, Recent;
    var mid := low + (high - low) / 2;
    var h := ReportOf(reports, since, high, true);
    NumberOfListed(reports, h);
    FirstIsAtOrAfter(reports, mid);
    AtOrAfterIsLeast(reports, mid);
    AtOfReports(reports, mid);
    r := AtOrAfter(reports, mid).value;
    NumberOfListed(reports, r);
    if r.number == high && !Recent(r, since) {
      OldIsReport(reports, since, r);
      OldBelowRecent(reports, since, high, h);
    }
  }

  lemma ReportOf(reports: seq<Report>, since: Time, n: nat, recent: bool) returns (r: Report)
    requires IsReport(reports, n, since, recent)
    ensures r in reports && r.number == n && Recent(r, since) == recent
  {
    r :| r in reports && r.number == n && Recent(r, since) == recent;
  }

  lemma OldIsReport(reports: seq<Report>, since: Time, r: Report)
    requires r in reports && !Recent(r, since)
    ensures IsReport(reports, r.number, since, false)
  {}

  /** One probe replaces an end of the interval by the report it lands on. */
  lemma Probe(reports: seq<Report>, since: Time, low: nat, high: nat, probes: nat) returns (n: nat)
    requires Bracket(reports, since, low, high) && 0 < probes && low + 1 < high
    ensures At(Numbers(reports), low + (high - low) / 2) == Some(n) && low + (high - low) / 2 <= n <= high
    ensures IsReport(reports, n, since, true) || IsReport(reports, n, since, false)
    ensures n == high ==> IsReport(reports, n, since, true)
    ensures IsReport(reports, n, since, true) ==>
      Bracket(reports, since, low, n)
          && Search(reports, since, low, high, probes) == Search(reports, since, low, n, probes - 1)
    ensures IsReport(reports, n, since, false) ==>
      Bracket(reports, since, n, high)
          && Search(reports, since, low, high, probes) == Search(reports, since, n, high, probes - 1)
  {
    hide First, StartName, Name, CostReportNumber, Bucket, At;
    var r := Landing(reports, since, low, high);
    n := r.number;
    OneDate(reports, since, n);
    assert IsReport(reports, n, since, Recent(r, since));
  }

  /** A number is not both old and recent. */
  lemma OneDate(reports: seq<Report>, since: Time, n: nat)
    requires Bucket(reports)
    ensures !(IsReport(reports, n, since, true) && IsReport(reports, n, since, false))
  {
    hide Bucket;
    if IsReport(reports, n, since, true) && IsReport(reports, n, since, false) {
      var q :| q in reports && q.number == n && Recent(q, since);
      OldBelowRecent(reports, since, n, q);
    }
  }

  lemma SearchOver(reports: seq<Report>, since: Time, low: nat, high: nat, probes: nat)
    requires probes == 0 || low + 1 >= high
    ensures Search(reports, since, low, high, probes) == StartAt(high)
  {}

  /** A probe that lands on the upper end leaves the interval as it is, and so do all that follow. */
  lemma {:induction false} StuckOnUpperEnd(reports: seq<Report>, since: Time, low: nat, high: nat, probes: nat)
    requires Bracket(reports, since, low, high)
    requires low + 1 < high ==> At(Numbers(reports), low + (high - low) / 2) == Some(high)
    ensures Search(reports, since, low, high, probes) == StartAt(high)
    decreases probes
  {
    hide *;
    if probes > 0 && low + 1 < high {
      var n := Probe(reports, since, low, high, probes);
      StuckOnUpperEnd(reports, since, low, high, probes - 1);
    } else {
      SearchOver(reports, since, low, high, probes);
    }
  }

  lemma UpperIsLeast(reports: seq<Report>, since: Time, low: nat, high: nat)
    requires Bracket(reports, since, low, high) && NoneBetween(Numbers(reports), low, high)
    ensures LeastRecent(reports, since, high)
  {
    hide Bucket, IsReport;
    forall q | q in reports && Recent(q, since) ensures high <= q.number {
      OldBelowRecent(reports, since, low, q);
      NumberOfReport(reports, q.number);
    }
  }

  // ---- the exact condition of the binary search --------------------------------------------------

  /** The condition on the numbers: wherever the probing may lead, an interval that still holds a report between its
      ends has one in its upper half, so that a probe does not land on the upper end, and the probes suffice. */
  ghost predicate Resolves(numbers: seq<nat>, low: nat, high: nat, probes: nat)
    decreases probes
  {
    NoneBetween(numbers, low, high) ||
    (probes > 0 &&
     match At(numbers, low + (high - low) / 2)
     case None => false
     case Some(n) => low < n < high && Resolves(numbers, low, n, probes - 1) && Resolves(numbers, n, high, probes - 1))
  }

  ghost predicate FindsLeast(reports: seq<Report>, since: Time, low: nat, high: nat, probes: nat) {
    var s := Search(reports, since, low, high, probes);
    s.StartAt? && LeastRecent(reports, since, s.number)
  }

  lemma BracketOrdered(reports: seq<Report>, since: Time, low: nat, high: nat)
    requires Bracket(reports, since, low, high)
    ensures Bucket(reports) && low < high && low in Numbers(reports) && high in Numbers(reports)
  {
    hide Bucket;
    var h :| h in reports && h.number == high && Recent(h, since);
    OldBelowRecent(reports, since, low, h);
    NumberOfReport(reports, low);
    NumberOfReport(reports, high);
  }

  lemma NothingBetween(reports: seq<Report>, since: Time, low: nat, high: nat, probes: nat)
    requires Bracket(reports, since, low, high) && NoneBetween(Numbers(reports), low, high)
    ensures FindsLeast(reports, since, low, high, probes)
  {
    hide Bucket, LeastRecent, IsReport, BinarySearch, Search, AtOrAfter, At;
    UpperIsLeast(reports, since, low, high);
    BracketOrdered(reports, since, low, high);
    if low + 1 < high {
      var n := Probe(reports, since, low, high, 1);
      AtMember(reports, low + (high - low) / 2, n);
    }
    StuckOnUpperEnd(reports, since, low, high, probes);
  }

  lemma AtMember(reports: seq<Report>, m: nat, n: nat)
    requires Bucket(reports) && At(Numbers(reports), m) == Some(n)
    ensures n in Numbers(reports)
  {
    NumbersAscend(reports);
    AtIsLeast(Numbers(reports), m);
  }

  lemma NumbersAscend(reports: seq<Report>)
    requires Bucket(reports)
    ensures Ascending(Numbers(reports))
  {}

  lemma {:induction false} ResolvedIsFound(reports: seq<Report>, since: Time, low: nat, high: nat, probes: nat)
    requires Bracket(reports, since, low, high) && Resolves(Numbers(reports), low, high, probes)
    ensures FindsLeast(reports, since, low, high, probes)
    decreases probes
  {
    hide Bracket, NoneBetween, At, Search, LeastRecent, IsReport;
    if NoneBetween(Numbers(reports), low, high) {
      NothingBetween(reports, since, low, high, probes);
    } else {
      BracketOrdered(reports, since, low, high);
      var n := Probe(reports, since, low, high, probes);
      if IsReport(reports, n, since, true) {
        ResolvedIsFound(reports, since, low, n, probes - 1);
      } else {
        ResolvedIsFound(reports, since, n, high, probes - 1);
      }
    }
  }

  /** Reports with the given numbers, those below b modified at 1 and the others at 2. */
  function DatedFrom(numbers: seq<nat>, b: nat): (reports: seq<Report>)
    ensures |reports| == |numbers| && Numbers(reports) == numbers
    ensures forall i :: 0 <= i < |reports| ==> reports[i] == Report(numbers[i], "", if numbers[i] < b then 1 else 2)
  {
    if numbers == [] then [] else
      var reports := [Report(numbers[0], "", if numbers[0] < b then 1 else 2)] + DatedFrom(numbers[1..], b);
      assert Numbers(reports) == numbers;
      reports
  }

  lemma DatedIsBucket(numbers: seq<nat>, b: nat)
    requires Ascending(numbers)
    ensures Bucket(DatedFrom(numbers, b)) && Stamped(DatedFrom(numbers, b))
  {
    hide DatedFrom;
    var reports := DatedFrom(numbers, b);
    forall r | r in reports ensures !IsZero(r.modified) {
      var i :| 0 <= i < |reports| && reports[i] == r;
    }
  }

  lemma DatedNumber(numbers: seq<nat>, b: nat, n: nat)
    requires n in numbers
    ensures IsReport(DatedFrom(numbers, b), n, 2, b <= n)
  {
    var i :| 0 <= i < |numbers| && numbers[i] == n;
    assert DatedFrom(numbers, b)[i] in DatedFrom(numbers, b);
  }

  lemma DatedLeast(numbers: seq<nat>, b: nat)
    requires b in numbers
    ensures LeastRecent(DatedFrom(numbers, b), 2, b)
  {
    DatedNumber(numbers, b, b);
    var reports := DatedFrom(numbers, b);
    forall q | q in reports && Recent(q, 2) ensures b <= q.number {
      var i :| 0 <= i < |reports| && reports[i] == q;
    }
  }

  /** The search on this dating does not answer b, its first recent report. */
  ghost predicate Misled(numbers: seq<nat>, b: nat, low: nat, high: nat, probes: nat) {
    var reports := DatedFrom(numbers, b);
    low < b <= high && b in numbers && Search(reports, 2, low, high, probes) != StartAt(b)
  }

  lemma {:induction false} UnresolvedMisleads(numbers: seq<nat>, low: nat, high: nat, probes: nat) returns (b: nat)
    requires Ascending(numbers) && low in numbers && high in numbers && low < high
        && !Resolves(numbers, low, high, probes)
    ensures Misled(numbers, b, low, high, probes)
    decreases probes
  {
    hide Ascending, Bracket, Search, LeastRecent, At, Resolves, DatedFrom;
    b := InnerNumber(numbers, low, high, probes);
    var mid := low + (high - low) / 2;
    AtIsLeast(numbers, mid);
    if probes == 0 {
      SearchOver(DatedFrom(numbers, b), 2, low, high, probes);
    } else if At(numbers, mid).value == high {
      DatedBracket(numbers, b, low, high);
      StuckOnUpperEnd(DatedFrom(numbers, b), 2, low, high, probes);
    } else {
      var n := At(numbers, mid).value;
      PartUnresolved(numbers, low, n, high, probes);
      var below := !Resolves(numbers, low, n, probes - 1);
      if below {
        b := UnresolvedMisleads(numbers, low, n, probes - 1);
      } else {
        b := UnresolvedMisleads(numbers, n, high, probes - 1);
      }
      ProbeOfDated(numbers, b, low, n, high, probes);
    }
  }

  lemma PartUnresolved(numbers: seq<nat>, low: nat, n: nat, high: nat, probes: nat)
    requires !Resolves(numbers, low, high, probes) && 0 < probes
    requires At(numbers, low + (high - low) / 2) == Some(n) && low < n < high
    ensures !Resolves(numbers, low, n, probes - 1) || !Resolves(numbers, n, high, probes - 1)
  {}

  lemma ProbeOfDated(numbers: seq<nat>, b: nat, low: nat, n: nat, high: nat, probes: nat)
    requires Ascending(numbers) && low in numbers && high in numbers && low < n < high && 0 < probes
    requires At(numbers, low + (high - low) / 2) == Some(n) && n in numbers && low < b <= high
    ensures Search(DatedFrom(numbers, b), 2, low, high, probes) ==
            if b <= n then Search(DatedFrom(numbers, b), 2, low, n, probes - 1)
            else Search(DatedFrom(numbers, b), 2, n, high, probes - 1)
  {
    hide *;
    DatedBracket(numbers, b, low, high);
    var m := Probe(DatedFrom(numbers, b), 2, low, high, probes);
    DatedNumber(numbers, b, n);
  }

  lemma InnerNumber(numbers: seq<nat>, low: nat, high: nat, probes: nat) returns (b: nat)
    requires !Resolves(numbers, low, high, probes)
    ensures b in numbers && low < b < high
  {
    b :| b in numbers && low < b < high;
  }

  lemma DatedBracket(numbers: seq<nat>, b: nat, low: nat, high: nat)
    requires Ascending(numbers) && low in numbers && high in numbers && low < b <= high
    ensures Bracket(DatedFrom(numbers, b), 2, low, high)
  {
    hide Ascending, IsReport, Bucket;
    DatedIsBucket(numbers, b);
    DatedNumber(numbers, b, low);
    DatedNumber(numbers, b, high);
  }

  lemma LeastIsUnique(reports: seq<Report>, since: Time, m: nat, n: nat)
    requires LeastRecent(reports, since, m) && LeastRecent(reports, since, n)
    ensures m == n
  {}

  /** For every dating and window, the binary search from these ends finds the first recent report exactly when the
      numbers resolve. */
  lemma BinarySearchFindsLeastIff(numbers: seq<nat>, low: nat, high: nat, probes: nat)
    requires Ascending(numbers) && low in numbers && high in numbers && low < high
    ensures Resolves(numbers, low, high, probes) <==>
            forall reports, since ::
              Bracket(reports, since, low, high) && Numbers(reports) == numbers ==>
                  FindsLeast(reports, since, low, high, probes)
  {
    hide Resolves, Bracket, Search, LeastRecent;
    if Resolves(numbers, low, high, probes) {
      forall reports, since | Bracket(reports, since, low, high) && Numbers(reports) == numbers
        ensures FindsLeast(reports, since, low, high, probes)
      {
        ResolvedIsFound(reports, since, low, high, probes);
      }
    } else {
      var b := UnresolvedMisleads(numbers, low, high, probes);
      DatedLeast(numbers, b);
      DatedBracket(numbers, b, low, high);
      if FindsLeast(DatedFrom(numbers, b), 2, low, high, probes) {
        LeastIsUnique(DatedFrom(numbers, b), 2, b, Search(DatedFrom(numbers, b), 2, low, high, probes).number);
      }
    }
  }

  // ---- where the gallop ends -----------------------------------------------------------------------

  datatype Interval = Interval(low: nat, high: nat)

  /** The interval in which the gallop starts its binary search, if it comes to one. A probe past the 16-digit
      numbers never does. */
  function FinalInterval(reports: seq<Report>, since: Time, low: nat, high: nat, probe: nat): Option<Interval>
    requires probe <= MAX_PROBES
    decreases MAX_PROBES - probe
  {
    if probe == MAX_PROBES || high >= SIXTEEN_DIGITS then None
    else
      match AtOrAfter(reports, high)
      case None => None
      case Some(r) =>
        if Recent(r, since) then Some(Interval(low, r.number))
        else FinalInterval(reports, since, r.number, r.number + Step(probe + 1), probe + 1)
  }

  /** The lower end lies within reach of the 16-digit numbers, the next probe at least a first step above it. */
  ghost predicate Galloping(low: nat, high: nat, probe: nat) {
    low + INITIAL_STEP <= high <= low + MAX_STEP && low <= SIXTEEN_DIGITS + probe * MAX_STEP
  }

  lemma NextGallop(n: nat, probe: nat)
    requires n < SIXTEEN_DIGITS
    ensures Galloping(n, n + Step(probe + 1), probe + 1)
  {
    StepAtLeast(probe + 1);
  }

  lemma StepAtLeast(shift: nat)
    ensures Step(shift) >= INITIAL_STEP
  {
    Pow2Monotone(0, shift);
    Pow2Monotone(0, MAX_SHIFT);
  }

  /** A listed report that is not before the start name bounds what the listing answers. */
  lemma {:induction false} FirstUpTo(reports: seq<Report>, start: string, q: Report)
    requires Bucket(reports) && q in reports && !Before(Name(q), start)
    ensures First(reports, start).Some? && First(reports, start).value in reports
        && First(reports, start).value.number <= q.number
  {
    hide Before, Name;
    if Before(Name(reports[0]), start) {
      FirstUpTo(reports[1..], start, q);
    } else {
      WithinEnds(reports, q);
    }
  }

  /** Past the 16-digit numbers a probe above an old report finds only old reports, and so do all that follow. */
  lemma {:induction false} PastSixteenDigits(reports: seq<Report>, since: Time, q: Report, low: nat, high: nat,
      probe: nat)
    requires Bucket(reports) && q in reports && !Recent(q, since) && q.number > 2 * SIXTEEN_DIGITS / 10
    requires q.number <= low < high && SIXTEEN_DIGITS <= high && probe <= MAX_PROBES
    requires high <= SIXTEEN_DIGITS + (probe + 1) * MAX_STEP
    ensures Gallop(reports, since, low, high, probe) == NotFound
    decreases MAX_PROBES - probe
  {
    hide Bucket, BinarySearch, First, StartName, Name, CostReportNumber, Before, Step, Recent;
    if probe < MAX_PROBES {
      NumberOfListed(reports, q);
      NameOrderWide(q, high);
      FirstUpTo(reports, StartName(high), q);
      var r := First(reports, StartName(high)).value;
      NumberOfListed(reports, r);
      OldDownwards(reports, since, r, q);
      PastSixteenDigits(reports, since, q, high, high + Step(probe + 1), probe + 1);
    }
  }

  lemma OldDownwards(reports: seq<Report>, since: Time, r: Report, q: Report)
    requires Bucket(reports) && r in reports && q in reports && r.number <= q.number && !Recent(q, since)
    ensures r.modified < since
  {
    if Recent(r, since) {
      RecentUpwards(reports, since, r, q);
    }
  }

  /** What a probe below the 16-digit numbers finds. */
  lemma FoundByProbe(reports: seq<Report>, since: Time, high: nat)
    requires Bucket(reports) && Stamped(reports) && high < SIXTEEN_DIGITS
    ensures First(reports, StartName(high)) == AtOrAfter(reports, high)
    ensures var found := AtOrAfter(reports, high);
            found.Some? ==>
              && high <= found.value.number < SIXTEEN_DIGITS && !IsZero(found.value.modified)
              && CostReportNumber(Name(found.value)) == Some(found.value.number)
              && IsReport(reports, found.value.number, since, Recent(found.value, since))
  {
    hide Bucket, First, StartName, Name, CostReportNumber, IsReport, AtOrAfter, Stamped, Recent;
    FirstIsAtOrAfter(reports, high);
    AtOrAfterIsLeast(reports, high);
    if AtOrAfter(reports, high).Some? {
      var r := AtOrAfter(reports, high).value;
      NumberOfListed(reports, r);
      StampOf(reports, r);
      DateOf(reports, since, r);
    }
  }

  /** The gallop is a binary search in its final interval, which is a bracket at least a first step wide. */
  lemma {:induction false} GallopIsBinarySearch(reports: seq<Report>, since: Time, low: nat, high: nat, probe: nat)
    requires Bucket(reports) && Stamped(reports) && IsReport(reports, low, since, false)
    requires Galloping(low, high, probe) && probe <= MAX_PROBES
    ensures match FinalInterval(reports, since, low, high, probe)
            case None => Gallop(reports, since, low, high, probe) == NotFound
            case Some(i) =>
              && Gallop(reports, since, low, high, probe) == Search(reports, since, i.low, i.high, MAX_PROBES)
              && Bracket(reports, since, i.low, i.high) && i.low + INITIAL_STEP <= i.high
    decreases MAX_PROBES - probe
  {
    hide Bucket, BinarySearch, First, StartName, Name, CostReportNumber, Step, IsReport, AtOrAfter, Stamped;
    if probe < MAX_PROBES {
      var q := ReportOf(reports, since, low, false);
      NumberOfListed(reports, q);
      if high >= SIXTEEN_DIGITS {
        PastSixteenDigits(reports, since, q, low, high, probe);
      } else {
        FoundByProbe(reports, since, high);
        if AtOrAfter(reports, high).Some? {
          var r := AtOrAfter(reports, high).value;
          NextGallop(r.number, probe);
          if !Recent(r, since) {
            GallopIsBinarySearch(reports, since, r.number, r.number + Step(probe + 1), probe + 1);
          }
        }
      }
    }
  }

  lemma StampOf(reports: seq<Report>, r: Report)
    requires Stamped(reports) && r in reports
    ensures !IsZero(r.modified)
  {}

  lemma DateOf(reports: seq<Report>, since: Time, r: Report)
    requires r in reports
    ensures IsReport(reports, r.number, since, Recent(r, since))
  {}

  function FinalIntervalOf(reports: seq<Report>, since: Time): Option<Interval> {
    if reports == [] || Recent(reports[0], since) then None
    else FinalInterval(reports, since, reports[0].number, reports[0].number + INITIAL_STEP, 0)
  }

  /** The whole seek: the first report when it is recent, otherwise a binary search in the final interval of the
      gallop. */
  lemma SeekIs(reports: seq<Report>, since: Time)
    requires Bucket(reports) && Stamped(reports) && reports != []
    ensures Recent(reports[0], since) ==> SeekStart(reports, since) == StartAt(reports[0].number)
    ensures !Recent(reports[0], since) ==>
      match FinalIntervalOf(reports, since)
      case None => SeekStart(reports, since) == NotFound
      case Some(i) => SeekStart(reports, since) == Search(reports, since, i.low, i.high, MAX_PROBES)
    ensures var f := FinalIntervalOf(reports, since);
            f.Some? ==> Bracket(reports, since, f.value.low, f.value.high) && f.value.low + INITIAL_STEP <= f.value.high
  {
    hide Bucket, First, Name, CostReportNumber, Gallop, FinalInterval, IsReport, Bracket, Search, Stamped;
    FirstOfAll(reports);
    NumberOfFirst(reports);
    StampOf(reports, reports[0]);
    if !Recent(reports[0], since) {
      DateOf(reports, since, reports[0]);
      assert INITIAL_STEP <= MAX_STEP;
      GallopIsBinarySearch(reports, since, reports[0].number, reports[0].number + INITIAL_STEP, 0);
    }
  }

  lemma {:induction false} SearchAnswers(reports: seq<Report>, since: Time, low: nat, high: nat, probes: nat)
    requires Bracket(reports, since, low, high)
    ensures Search(reports, since, low, high, probes).StartAt?
    decreases probes
  {
    hide *;
    if probes > 0 && low + 1 < high {
      var n := Probe(reports, since, low, high, probes);
      if IsReport(reports, n, since, true) {
        SearchAnswers(reports, since, low, n, probes - 1);
      } else {
        SearchAnswers(reports, since, n, high, probes - 1);
      }
    } else {
      SearchOver(reports, since, low, high, probes);
    }
  }

  // ---- when the seek answers --------------------------------------------------------------------------

  /** The number the gallop reaches j probes after the one at high, if all before it are old. It depends on the numbers
      only. */
  function Point(numbers: seq<nat>, high: nat, probe: nat, j: nat): Option<nat>
    decreases j
  {
    var here := if high < SIXTEEN_DIGITS then At(numbers, high) else None;
    if j == 0 || here.None? then here else Point(numbers, here.value + Step(probe + 1), probe + 1, j - 1)
  }

  ghost predicate RecentPoint(reports: seq<Report>, since: Time, high: nat, probe: nat, j: nat) {
    var p := Point(Numbers(reports), high, probe, j);
    p.Some? && IsReport(reports, p.value, since, true)
  }

  /** One of the next points is recent. */
  ghost predicate AnyRecentPoint(reports: seq<Report>, since: Time, high: nat, probe: nat, count: nat) {
    exists j: nat :: j < count && RecentPoint(reports, since, high, probe, j)
  }

  /** Beyond an old point the later points are those of the gallop from there. */
  lemma PointsBeyond(reports: seq<Report>, since: Time, high: nat, probe: nat, n: nat, count: nat)
    requires high < SIXTEEN_DIGITS && At(Numbers(reports), high) == Some(n) && !IsReport(reports, n, since, true)
        && 0 < count
    ensures AnyRecentPoint(reports, since, high, probe, count) <==>
            AnyRecentPoint(reports, since, n + Step(probe + 1), probe + 1, count - 1)
  {
    hide IsReport, At, Step;
    var next, after := n + Step(probe + 1), probe + 1;
    if j: nat :| j < count && RecentPoint(reports, since, high, probe, j) {
      assert RecentPoint(reports, since, next, after, j - 1);
    }
    if j: nat :| j < count - 1 && RecentPoint(reports, since, next, after, j) {
      assert RecentPoint(reports, since, high, probe, j + 1);
    }
  }

  lemma NoPoints(reports: seq<Report>, since: Time, high: nat, probe: nat, count: nat)
    requires count == 0 || high >= SIXTEEN_DIGITS || At(Numbers(reports), high).None?
    ensures !AnyRecentPoint(reports, since, high, probe, count)
  {}

  lemma {:induction false} FinalIntervalIff(reports: seq<Report>, since: Time, low: nat, high: nat, probe: nat)
    requires Bucket(reports) && probe <= MAX_PROBES
    ensures FinalInterval(reports, since, low, high, probe).Some? <==>
            AnyRecentPoint(reports, since, high, probe, MAX_PROBES - probe)
    decreases MAX_PROBES - probe
  {
    hide Bucket, IsReport, AtOrAfter, At, Step, Recent, AnyRecentPoint;
    AtOfReports(reports, high);
    AtOrAfterIsLeast(reports, high);
    if probe < MAX_PROBES && high < SIXTEEN_DIGITS && AtOrAfter(reports, high).Some? {
      var r := AtOrAfter(reports, high).value;
      DateOf(reports, since, r);
      OneDate(reports, since, r.number);
      if Recent(r, since) {
        FirstPoint(reports, since, high, probe, r.number, MAX_PROBES - probe);
      } else {
        PointsBeyond(reports, since, high, probe, r.number, MAX_PROBES - probe);
        FinalIntervalIff(reports, since, r.number, r.number + Step(probe + 1), probe + 1);
      }
    } else {
      NoPoints(reports, since, high, probe, MAX_PROBES - probe);
    }
  }

  lemma FirstPoint(reports: seq<Report>, since: Time, high: nat, probe: nat, n: nat, count: nat)
    requires high < SIXTEEN_DIGITS && At(Numbers(reports), high) == Some(n) && IsReport(reports, n, since, true)
        && 0 < count
    ensures AnyRecentPoint(reports, since, high, probe, count)
  {
    assert RecentPoint(reports, since, high, probe, 0);
  }

  /** The seek answers exactly when the first report or one of the 32 gallop points is recent. */
  lemma SeekAnswersIff(reports: seq<Report>, since: Time)
    requires Bucket(reports) && Stamped(reports) && reports != []
    ensures SeekStart(reports, since).StartAt? <==>
            Recent(reports[0], since) ||
            AnyRecentPoint(reports, since, reports[0].number + INITIAL_STEP, 0, MAX_PROBES)
  {
    hide Bucket, Stamped, SeekStart, FinalInterval, Search, Bracket, AnyRecentPoint;
    SeekIs(reports, since);
    FinalIntervalIff(reports, since, reports[0].number, reports[0].number + INITIAL_STEP, 0);
    var f := FinalIntervalOf(reports, since);
    if f.Some? {
      SearchAnswers(reports, since, f.value.low, f.value.high, MAX_PROBES);
    } else if Recent(reports[0], since) {
    } else {
      assert SeekStart(reports, since) == NotFound;
    }
  }

  // ---- when the answer is the first recent report ------------------------------------------------------

  /** An answer is the first recent report whenever the final interval resolves; nothing is asked of the numbers outside
      it. */
  lemma SeekIsLeast(reports: seq<Report>, since: Time)
    requires Bucket(reports) && Stamped(reports) && SeekStart(reports, since).StartAt?
    requires var f := FinalIntervalOf(reports, since); f.Some? ==>
      Resolves(Numbers(reports), f.value.low, f.value.high, MAX_PROBES)
    ensures LeastRecent(reports, since, SeekStart(reports, since).number)
  {
    hide Bucket, Stamped, LeastRecent, Search, Bracket, Resolves, FinalIntervalOf, SeekStart;
    FirstOfAll(reports);
    NothingSought(reports, since);
    SeekIs(reports, since);
    if Recent(reports[0], since) {
      FirstRecent(reports, since);
    } else {
      var f := FinalIntervalOf(reports, since);
      ResolvedIsFound(reports, since, f.value.low, f.value.high, MAX_PROBES);
    }
  }

  lemma NothingSought(reports: seq<Report>, since: Time)
    requires SeekStart(reports, since).StartAt?
    ensures reports != []
  {}

  /** Every interval the gallop may end in resolves. The condition is on the numbers only. */
  ghost predicate GallopResolves(numbers: seq<nat>, low: nat, high: nat, probe: nat)
    requires probe <= MAX_PROBES
    decreases MAX_PROBES - probe
  {
    probe == MAX_PROBES || high >= SIXTEEN_DIGITS ||
    match At(numbers, high)
    case None => true
    case Some(n) => Resolves(numbers, low, n, MAX_PROBES) && GallopResolves(numbers, n, n + Step(probe + 1), probe + 1)
  }

  ghost predicate SeekResolves(numbers: seq<nat>) {
    numbers != [] ==> GallopResolves(numbers, numbers[0], numbers[0] + INITIAL_STEP, 0)
  }

  lemma {:induction false} FinalIntervalResolves(reports: seq<Report>, since: Time, low: nat, high: nat, probe: nat)
    requires probe <= MAX_PROBES && GallopResolves(Numbers(reports), low, high, probe)
    ensures var f := FinalInterval(reports, since, low, high, probe);
            f.Some? ==> Resolves(Numbers(reports), f.value.low, f.value.high, MAX_PROBES)
    decreases MAX_PROBES - probe
  {
    hide Resolves, At, AtOrAfter, Recent, Step;
    AtOfReports(reports, high);
    if probe < MAX_PROBES && high < SIXTEEN_DIGITS && AtOrAfter(reports, high).Some? {
      var r := AtOrAfter(reports, high).value;
      if !Recent(r, since) {
        FinalIntervalResolves(reports, since, r.number, r.number + Step(probe + 1), probe + 1);
      }
    }
  }

  /** On this dating the gallop ends in an interval whose search does not answer b, the first recent report. */
  ghost predicate GallopMisled(numbers: seq<nat>, b: nat, low: nat, high: nat, probe: nat)
    requires probe <= MAX_PROBES
  {
    var f := FinalInterval(DatedFrom(numbers, b), 2, low, high, probe);
    low < b && b in numbers && f.Some?
        && Search(DatedFrom(numbers, b), 2, f.value.low, f.value.high, MAX_PROBES) != StartAt(b)
  }

  lemma {:induction false} UnresolvedGallopMisleads(numbers: seq<nat>, low: nat, high: nat, probe: nat) returns (b: nat)
    requires Ascending(numbers) && low in numbers && low < high && probe <= MAX_PROBES
        && !GallopResolves(numbers, low, high, probe)
    ensures GallopMisled(numbers, b, low, high, probe)
    decreases MAX_PROBES - probe
  {
    hide Ascending, Resolves, Search, DatedFrom, AtOrAfter, At, Step, Recent;
    AtIsLeast(numbers, high);
    var n := At(numbers, high).value;
    var here := !Resolves(numbers, low, n, MAX_PROBES);
    if here {
      b := UnresolvedMisleads(numbers, low, n, MAX_PROBES);
    } else {
      b := UnresolvedGallopMisleads(numbers, n, n + Step(probe + 1), probe + 1);
    }
    var reports := DatedFrom(numbers, b);
    assert Numbers(reports) == numbers;
    AtOfReports(reports, high);
    DatedAt(numbers, b, high);
  }

  lemma DatedAt(numbers: seq<nat>, b: nat, m: nat)
    requires Ascending(numbers)
    ensures var r := AtOrAfter(DatedFrom(numbers, b), m); r.Some? ==> (Recent(r.value, 2) <==> b <= r.value.number)
  {
    hide Ascending, AtOrAfter, Bucket;
    DatedIsBucket(numbers, b);
    AtOrAfterIsLeast(DatedFrom(numbers, b), m);
  }

  lemma ResolvedSeekIsLeast(reports: seq<Report>, since: Time)
    requires Bucket(reports) && Stamped(reports) && SeekResolves(Numbers(reports)) && SeekStart(reports, since).StartAt?
    ensures LeastRecent(reports, since, SeekStart(reports, since).number)
  {
    hide Bucket, Stamped, SeekStart, LeastRecent, GallopResolves, Resolves, Search, Bracket, FinalInterval;
    NothingSought(reports, since);
    FinalIntervalResolves(reports, since, reports[0].number, reports[0].number + INITIAL_STEP, 0);
    SeekIsLeast(reports, since);
  }

  /** For every dating and window: an answer of the seek is the first recent report exactly when the numbers resolve
      wherever the gallop may end. */
  lemma SeekFindsLeastIff(numbers: seq<nat>)
    requires Ascending(numbers)
    ensures SeekResolves(numbers) <==>
            forall reports, since ::
              Bucket(reports) && Stamped(reports) && Numbers(reports) == numbers
                  && SeekStart(reports, since).StartAt? ==>
              LeastRecent(reports, since, SeekStart(reports, since).number)
  {
    hide Ascending, Bucket, Stamped, SeekStart, LeastRecent, GallopResolves, Resolves, Search, Bracket, FinalInterval;
    if SeekResolves(numbers) {
      forall reports, since | Bucket(reports) && Stamped(reports) && Numbers(reports) == numbers
          && SeekStart(reports, since).StartAt?
        ensures LeastRecent(reports, since, SeekStart(reports, since).number)
      {
        ResolvedSeekIsLeast(reports, since);
      }
    } else {
      var b := UnresolvedGallopMisleads(numbers, numbers[0], numbers[0] + INITIAL_STEP, 0);
      MisledSeek(numbers, b);
    }
  }

  lemma MisledSeek(numbers: seq<nat>, b: nat)
    requires Ascending(numbers) && numbers != [] && GallopMisled(numbers, b, numbers[0], numbers[0] + INITIAL_STEP, 0)
    ensures var reports := DatedFrom(numbers, b);
            && Bucket(reports) && Stamped(reports) && Numbers(reports) == numbers
            && SeekStart(reports, 2).StartAt? && !LeastRecent(reports, 2, SeekStart(reports, 2).number)
  {
    hide Ascending, Bucket, Stamped, SeekStart, LeastRecent, Search, Bracket, FinalInterval, DatedFrom;
    var reports := DatedFrom(numbers, b);
    assert reports[0] == Report(numbers[0], "", 1);
    DatedIsBucket(numbers, b);
    DatedLeast(numbers, b);
    SeekIs(reports, 2);
    var f := FinalInterval(reports, 2, numbers[0], numbers[0] + INITIAL_STEP, 0);
    SearchAnswers(reports, 2, f.value.low, f.value.high, MAX_PROBES);
    if LeastRecent(reports, 2, SeekStart(reports, 2).number) {
      LeastIsUnique(reports, 2, b, SeekStart(reports, 2).number);
    }
  }
}
