/** The search for the first recent cost report: a gallop, then a binary search. */
module OciSeek {
  import opened Calendar
  import opened Domain
  import opened Numerals
  import opened OciNames

  const MAX_PROBES: nat := 32
  const INITIAL_STEP: nat := 100_000

  // ---- what a search may answer --------------------------------------------------------------

  datatype Seek = Failed | NotFound | StartAt(number: nat)

  ghost predicate IsReport(reports: seq<Report>, n: nat, since: Time, recent: bool) {
    exists r :: r in reports && r.number == n && Recent(r, since) == recent
  }

  /** n is a recent report and so is every later one. */
  ghost predicate SafeStart(reports: seq<Report>, since: Time, n: nat) {
    IsReport(reports, n, since, true) && forall q :: q in reports && q.number >= n ==> Recent(q, since)
  }

  /** n is the first recent report. */
  ghost predicate LeastRecent(reports: seq<Report>, since: Time, n: nat) {
    IsReport(reports, n, since, true) && forall q :: q in reports && Recent(q, since) ==> n <= q.number
  }

  lemma RecentUpwards(reports: seq<Report>, since: Time, q: Report, r: Report)
    requires Bucket(reports) && q in reports && r in reports && q.number <= r.number && Recent(q, since)
    ensures Recent(r, since)
  {
    var i :| 0 <= i < |reports| && reports[i] == q;
    var j :| 0 <= j < |reports| && reports[j] == r;
    assert i <= j;
  }

  lemma RecentIsSafe(reports: seq<Report>, since: Time, n: nat)
    requires Bucket(reports) && IsReport(reports, n, since, true)
    ensures SafeStart(reports, since, n)
  {
    var r :| r in reports && r.number == n && Recent(r, since);
    forall q | q in reports && q.number >= n ensures Recent(q, since) {
      RecentUpwards(reports, since, r, q);
    }
  }

  /** A recent report above an old one is above every old one's number; below it nothing else may be recent. */
  lemma OldBelowRecent(reports: seq<Report>, since: Time, low: nat, q: Report)
    requires Bucket(reports) && IsReport(reports, low, since, false) && q in reports && Recent(q, since)
    ensures low < q.number
  {
    var r :| r in reports && r.number == low && !Recent(r, since);
    if q.number <= low {
      RecentUpwards(reports, since, q, r);
    }
  }

  // ---- the binary search ---------------------------------------------------------------------

  /** binarySearchCostReportStart when no listing fails: the answer from this interval with this many probes left. */
  function BinarySearch(reports: seq<Report>, since: Time, low: nat, high: nat, best: nat, probes: nat): Seek
    decreases probes
  {
    if probes == 0 || low + 1 >= high then StartAt(best)
    else
      var mid := low + (high - low) / 2;
      match First(reports, StartName(mid))
      case None => BinarySearch(reports, since, low, mid, best, probes - 1)
      case Some(r) =>
        var number := CostReportNumber(Name(r));
        if number.None? || IsZero(r.modified) then NotFound
        else if r.modified < since then
          BinarySearch(reports, since, if number.value <= low then mid else number.value, high, best, probes - 1)
        else BinarySearch(reports, since, low, number.value, number.value, probes - 1)
  }

  /** One listing, which may fail. */
  method FirstCostReportAtOrAfter(reports: seq<Report>, start: string) returns (failed: bool, report: Option<Report>)
    ensures !failed ==> report == First(reports, start)
  {
    failed := *;
    report := if failed then None else First(reports, start);
  }

  method BinarySearchCostReportStart(reports: seq<Report>, since: Time, from: nat, to: nat)
    returns (result: Seek, listings: nat)
    ensures result != Failed ==> result == BinarySearch(reports, since, from, to, to, MAX_PROBES)
    ensures listings <= MAX_PROBES
  {
    hide First, StartName, CostReportNumber, Name, Bucket, Before, Padded, Decimal;
    var low, high, best := from, to, to;
    listings := 0;
    while listings < MAX_PROBES && low + 1 < high
      invariant listings <= MAX_PROBES
      invariant BinarySearch(reports, since, low, high, best, MAX_PROBES - listings) ==
          BinarySearch(reports, since, from, to, to, MAX_PROBES)
      decreases MAX_PROBES - listings
    {
      var mid := low + (high - low) / 2;
      var failed, report := FirstCostReportAtOrAfter(reports, StartName(mid));
      listings := listings + 1;
      if failed { return Failed, listings; }
      if report.None? {
        high := mid;
        continue;
      }
      var number := CostReportNumber(Name(report.value));
      if number.None? || IsZero(report.value.modified) { return NotFound, listings; }
      if report.value.modified < since {
        low := if number.value <= low then mid else number.value;
        continue;
      }
      best := number.value;
      high := number.value;
    }
    result := StartAt(best);
  }

  lemma {:induction false} BinarySearchSafe(reports: seq<Report>, since: Time, low: nat, high: nat, best: nat,
      probes: nat)
    requires Bucket(reports) && IsReport(reports, best, since, true)
    ensures var s := BinarySearch(reports, since, low, high, best, probes);
            s.StartAt? ==> SafeStart(reports, since, s.number)
    decreases probes
  {
    hide First, StartName, Name, CostReportNumber, Bucket, SafeStart;
    RecentIsSafe(reports, since, best);
    if probes > 0 && low + 1 < high {
      var mid := low + (high - low) / 2;
      var found := First(reports, StartName(mid));
      if found.None? {
        BinarySearchSafe(reports, since, low, mid, best, probes - 1);
      } else {
        var r := found.value;
        FirstListed(reports, StartName(mid));
        NumberOfListed(reports, r);
        if r.modified < since {
          BinarySearchSafe(reports, since, if r.number <= low then mid else r.number, high, best, probes - 1);
        } else {
          BinarySearchSafe(reports, since, low, r.number, r.number, probes - 1);
        }
      }
    }
  }

  // ---- the galloping search --------------------------------------------------------------------

  function Pow2(k: nat): nat { if k == 0 then 1 else 2 * Pow2(k - 1) }

  const MAX_SHIFT: nat := 20
  /** INITIAL_STEP << MAX_SHIFT. */
  const MAX_STEP: nat := 104_857_600_000
  const POW2_32: nat := 0x1_0000_0000

  lemma Powers()
    ensures Pow2(MAX_PROBES) == POW2_32 && INITIAL_STEP * Pow2(MAX_SHIFT) == MAX_STEP
  {
    assert Pow2(4) == 16 && Pow2(8) == 16 * Pow2(4) && Pow2(12) == 16 * Pow2(8) && Pow2(16) == 16 * Pow2(12);
    assert Pow2(20) == 16 * Pow2(16) && Pow2(24) == 16 * Pow2(20) && Pow2(28) == 16 * Pow2(24)
        && Pow2(32) == 16 * Pow2(28);
  }

  lemma {:induction false} Pow2Monotone(a: nat, b: nat)
    requires a <= b
    ensures Pow2(a) <= Pow2(b)
    decreases b - a
  {
    if a < b {
      Pow2Monotone(a, b - 1);
    }
  }

  /** INITIAL_STEP << min(shift, MAX_SHIFT). */
  function Step(shift: nat): (step: nat)
    ensures 1 <= step <= MAX_STEP
  {
    Powers();
    Pow2Monotone(0, shift);
    Pow2Monotone(if shift < MAX_SHIFT then shift else MAX_SHIFT, MAX_SHIFT);
    INITIAL_STEP * Pow2(if shift < MAX_SHIFT then shift else MAX_SHIFT)
  }

  /** The gallop from this interval when no listing fails. */
  function Gallop(reports: seq<Report>, since: Time, low: nat, high: nat, probe: nat): Seek
    requires probe <= MAX_PROBES
    decreases MAX_PROBES - probe
  {
    if probe == MAX_PROBES then NotFound
    else
      match First(reports, StartName(high))
      case None => NotFound
      case Some(r) =>
        var number := CostReportNumber(Name(r));
        if number.None? || IsZero(r.modified) then NotFound
        else if !(r.modified < since) then BinarySearch(reports, since, low, number.value, number.value, MAX_PROBES)
        else
          var next := if number.value <= low then high else number.value;
          Gallop(reports, since, next, next + Step(probe + 1), probe + 1)
  }

  /** findCostReportStartNumber when no listing fails. */
  function SeekStart(reports: seq<Report>, since: Time): Seek {
    match First(reports, "")
    case None => NotFound
    case Some(r) =>
      var number := CostReportNumber(Name(r));
      if number.None? || IsZero(r.modified) then NotFound
      else if !(r.modified < since) then StartAt(number.value)
      else Gallop(reports, since, number.value, number.value + INITIAL_STEP, 0)
  }

  lemma {:induction false} GallopIsSafe(reports: seq<Report>, since: Time, low: nat, high: nat, probe: nat)
    requires Bucket(reports) && probe <= MAX_PROBES
    ensures var s := Gallop(reports, since, low, high, probe); s.StartAt? ==> SafeStart(reports, since, s.number)
    decreases MAX_PROBES - probe
  {
    hide BinarySearch, First, StartName, Name, CostReportNumber, Bucket, SafeStart, Step;
    var found := First(reports, StartName(high));
    if probe < MAX_PROBES && found.Some? {
      var r := found.value;
      NumberOfFound(reports, StartName(high));
      if Recent(r, since) {
        assert IsReport(reports, r.number, since, true);
        BinarySearchSafe(reports, since, low, r.number, r.number, MAX_PROBES);
      } else {
        var next := if r.number <= low then high else r.number;
        GallopIsSafe(reports, since, next, next + Step(probe + 1), probe + 1);
      }
    }
  }

  /** On any numbering an answer is an existing recent report, and every later report is recent too. */
  lemma SeekIsSafe(reports: seq<Report>, since: Time)
    requires Bucket(reports)
    ensures var s := SeekStart(reports, since); s.StartAt? ==> SafeStart(reports, since, s.number)
  {
    hide First, Name, CostReportNumber, Bucket, SafeStart, IsReport, Gallop;
    FirstOfAll(reports);
    if reports != [] {
      NumberOfFirst(reports);
      if Recent(reports[0], since) {
        FirstRecent(reports, since);
      } else {
        GallopIsSafe(reports, since, reports[0].number, reports[0].number + INITIAL_STEP, 0);
      }
    }
  }

  lemma FirstRecent(reports: seq<Report>, since: Time)
    requires Bucket(reports) && reports != [] && Recent(reports[0], since)
    ensures SafeStart(reports, since, reports[0].number) && LeastRecent(reports, since, reports[0].number)
  {
    assert reports[0] in reports;
    RecentIsSafe(reports, since, reports[0].number);
    forall q | q in reports ensures reports[0].number <= q.number {
      WithinEnds(reports, q);
    }
  }

  /** The ends of the gallop stay within reach of the 16-digit numbers. */
  ghost predicate InReach(reports: seq<Report>, low: nat, high: nat, probe: nat)
    requires reports != []
  {
    reports[0].number <= low < high <= low + MAX_STEP && low <= SIXTEEN_DIGITS + probe * MAX_STEP
  }

  /** Without failed listings the loop answers as specified, in at most 65 listings. */
  method FindCostReportStartNumber(reports: seq<Report>, since: Time) returns (result: Seek, listings: nat)
    requires Bucket(reports)
    ensures listings <= 1 + 2 * MAX_PROBES
    ensures result != Failed ==> result == SeekStart(reports, since)
    ensures result.StartAt? ==> SafeStart(reports, since, result.number)
  {
    hide BinarySearch, First, StartName, Name, CostReportNumber, Bucket, SafeStart, Step;
    SeekIsSafe(reports, since);
    var failed, first := FirstCostReportAtOrAfter(reports, "");
    listings := 1;
    if failed { return Failed, listings; }
    if first.None? { return NotFound, listings; }
    FirstOfAll(reports);
    NumberOfFirst(reports);
    var firstNumber := CostReportNumber(Name(first.value));
    if firstNumber.None? || IsZero(first.value.modified) { return NotFound, listings; }
    if !(first.value.modified < since) { return StartAt(firstNumber.value), listings; }
    var low: nat, high: nat := firstNumber.value, firstNumber.value + INITIAL_STEP;
    for probe := 0 to MAX_PROBES
      invariant listings == 1 + probe
      invariant InReach(reports, low, high, probe) && high <= MAX_UINT64
      invariant SeekStart(reports, since) == Gallop(reports, since, low, high, probe)
    {
      var report;
      failed, report := FirstCostReportAtOrAfter(reports, StartName(high));
      listings := listings + 1;
      if failed { return Failed, listings; }
      if report.None? { return NotFound, listings; }
      NumberOfFound(reports, StartName(high));
      var objectNumber := CostReportNumber(Name(report.value));
      if objectNumber.None? || IsZero(report.value.modified) { return NotFound, listings; }
      if !(report.value.modified < since) {
        high := objectNumber.value;
        var more;
        result, more := BinarySearchCostReportStart(reports, since, low, high);
        return result, listings + more;
      }
      low := if objectNumber.value <= low then high else objectNumber.value;
      high := low + Step(probe + 1);
    }
    result := NotFound;
  }
}
