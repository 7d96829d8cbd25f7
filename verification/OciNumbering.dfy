/** Numberings on which the search for the first cost report is right, or is not: dense ones, steady ones, and small
    buckets on which it fails. */
module OciNumbering {
  import opened Calendar
  import opened Domain
  import opened OciNames
  import opened OciSeek
  import opened OciSeekExact

  // ---- dense numbering -----------------------------------------------------------------------------

  ghost predicate Dense(numbers: seq<nat>, low: nat, high: nat) { forall n: nat :: low <= n <= high ==> n in numbers }

  lemma AtMember(numbers: seq<nat>, m: nat)
    requires Ascending(numbers) && m in numbers
    ensures At(numbers, m) == Some(m)
  {
    AtIsLeast(numbers, m);
  }

  /** With every number of the interval taken, each probe halves it. */
  lemma {:induction false} DenseResolves(numbers: seq<nat>, low: nat, high: nat, probes: nat)
    requires Ascending(numbers) && Dense(numbers, low, high) && high - low <= Pow2(probes)
    ensures Resolves(numbers, low, high, probes)
    decreases probes
  {
    hide Ascending, At;
    if probes > 0 && low + 1 < high {
      var mid := low + (high - low) / 2;
      AtMember(numbers, mid);
      DenseResolves(numbers, low, mid, probes - 1);
      DenseResolves(numbers, mid, high, probes - 1);
    }
  }

  /** An answer is the first recent report when the final interval is dense and at most 2^32 wide, whatever is missing
      elsewhere. */
  lemma SeekIsLeastInDenseInterval(reports: seq<Report>, since: Time)
    requires Bucket(reports) && Stamped(reports) && SeekStart(reports, since).StartAt?
    requires var f := FinalIntervalOf(reports, since);
             f.Some? ==> Dense(Numbers(reports), f.value.low, f.value.high) && f.value.high - f.value.low <= POW2_32
    ensures LeastRecent(reports, since, SeekStart(reports, since).number)
  {
    hide Bucket, Stamped, SeekStart, LeastRecent, FinalIntervalOf, Dense, Resolves;
    var f := FinalIntervalOf(reports, since);
    if f.Some? {
      NumbersAscend(reports);
      Powers();
      DenseResolves(Numbers(reports), f.value.low, f.value.high, MAX_PROBES);
    }
    SeekIsLeast(reports, since);
  }

  /** The sum of the steps of the first k + 1 probes. */
  function Total(k: nat): nat { Step(k) + if k == 0 then 0 else Total(k - 1) }

  lemma {:induction false} TotalIs(k: nat)
    ensures Total(k) == if k <= MAX_SHIFT then INITIAL_STEP * (Pow2(k + 1) - 1)
                        else INITIAL_STEP * (Pow2(MAX_SHIFT + 1) - 1) + (k - MAX_SHIFT) * MAX_STEP
  {
    hide Pow2;
    Powers();
    if k > 0 {
      TotalIs(k - 1);
      Pow2Twice(k);
    } else {
      Pow2Twice(0);
      assert Step(0) == INITIAL_STEP * Pow2(0);
    }
  }

  lemma Pow2Twice(k: nat)
    ensures Pow2(k + 1) == 2 * Pow2(k) && Pow2(0) == 1
  {}

  lemma {:induction false} DensePoint(numbers: seq<nat>, high: nat, probe: nat, j: nat)
    requires Ascending(numbers) && numbers != [] && Dense(numbers, numbers[0], numbers[|numbers| - 1])
        && numbers[0] <= high
    ensures var p := high + Total(probe + j) - Total(probe);
            p >= high && Point(numbers, high, probe, j) == if p <= numbers[|numbers| - 1] then Some(p) else None
    decreases j
  {
    hide At, Step;
    var last := numbers[|numbers| - 1];
    if high <= last {
      AtMember(numbers, high);
    } else {
      AtIsLeast(numbers, high);
    }
    assert Total(probe + 1) == Total(probe) + Step(probe + 1);
    if j > 0 {
      DensePoint(numbers, high + Step(probe + 1), probe + 1, j - 1);
      if high > last {
        AtIsLeast(numbers, high);
      }
    }
  }

  /** The j-th gallop point of a dense bucket lies between the first recent report and the last. */
  ghost predicate PointBetween(first: nat, b: nat, last: nat, j: nat) { b <= first + Total(j) <= last }

  ghost predicate AnyPointBetween(first: nat, b: nat, last: nat, count: nat) {
    exists j: nat :: j < count && PointBetween(first, b, last, j)
  }

  /** On a dense bucket whose first recent report is b, the seek answers exactly when b is the first report of all or
      one of the 32 gallop points lies between b and the last report. */
  lemma DenseSeekAnswersIff(reports: seq<Report>, since: Time, b: nat)
    requires Bucket(reports) && Stamped(reports) && reports != [] && LeastRecent(reports, since, b)
    requires Dense(Numbers(reports), reports[0].number, reports[|reports| - 1].number)
    ensures SeekStart(reports, since).StartAt? <==>
            b == reports[0].number ||
            AnyPointBetween(reports[0].number, b, reports[|reports| - 1].number, MAX_PROBES)
  {
    hide Bucket, Stamped, SeekStart, Total, Point, Dense, LeastRecent;
    var first, last, high := reports[0].number, reports[|reports| - 1].number, reports[0].number + INITIAL_STEP;
    SeekAnswersIff(reports, since);
    FirstRecentIff(reports, since, b);
    forall j: nat ensures RecentPoint(reports, since, high, 0, j) <==> PointBetween(first, b, last, j) {
      DensePointRecent(reports, since, b, j);
    }
    if j: nat :| j < MAX_PROBES && RecentPoint(reports, since, high, 0, j) {
      assert PointBetween(first, b, last, j);
    }
    if j: nat :| j < MAX_PROBES && PointBetween(first, b, last, j) {
      assert RecentPoint(reports, since, high, 0, j);
    }
  }

  lemma FirstRecentIff(reports: seq<Report>, since: Time, b: nat)
    requires Bucket(reports) && reports != [] && LeastRecent(reports, since, b)
    ensures Recent(reports[0], since) <==> b == reports[0].number
  {
    var r :| r in reports && r.number == b && Recent(r, since);
    assert reports[0] in reports;
    WithinEnds(reports, r);
    if b == reports[0].number {
      RecentUpwards(reports, since, r, reports[0]);
    }
  }

  lemma DensePointRecent(reports: seq<Report>, since: Time, b: nat, j: nat)
    requires Bucket(reports) && reports != [] && LeastRecent(reports, since, b)
    requires Dense(Numbers(reports), reports[0].number, reports[|reports| - 1].number)
    ensures RecentPoint(reports, since, reports[0].number + INITIAL_STEP, 0, j) <==>
            PointBetween(reports[0].number, b, reports[|reports| - 1].number, j)
  {
    hide Bucket, Total, Point, LeastRecent, IsReport;
    var p := reports[0].number + Total(j);
    NumbersAscend(reports);
    FirstTotal();
    DensePoint(Numbers(reports), reports[0].number + INITIAL_STEP, 0, j);
    if reports[0].number <= p <= reports[|reports| - 1].number {
      RecentFrom(reports, since, b, p);
    }
  }

  lemma FirstTotal()
    ensures Total(0) == INITIAL_STEP
  {
    assert Step(0) == INITIAL_STEP * Pow2(0);
  }

  /** From the first recent report on, the reports are the recent ones. */
  lemma RecentFrom(reports: seq<Report>, since: Time, b: nat, n: nat)
    requires Bucket(reports) && LeastRecent(reports, since, b) && n in Numbers(reports)
    ensures IsReport(reports, n, since, true) <==> b <= n
  {
    hide Bucket;
    NumberOfReport(reports, n);
    RecentIsSafe(reports, since, b);
  }

  // ---- steady numbering ----------------------------------------------------------------------------

  /** No gap within the interval is more than one wider than the gap before it. */
  ghost predicate Steady(numbers: seq<nat>, a: nat, c: nat)
    requires a <= c < |numbers|
  {
    forall i: nat :: a <= i && i + 2 <= c ==> GapGrowsSlowly(numbers, i)
  }

  ghost predicate GapGrowsSlowly(numbers: seq<nat>, i: nat)
    requires i + 2 < |numbers|
  {
    numbers[i + 2] + numbers[i] <= 2 * numbers[i + 1] + 1
  }

  lemma Adjacent(numbers: seq<nat>, a: nat)
    requires Ascending(numbers) && a + 1 < |numbers|
    ensures NoneBetween(numbers, numbers[a], numbers[a + 1])
  {
    forall x | x in numbers ensures x <= numbers[a] || numbers[a + 1] <= x {
      var i :| 0 <= i < |numbers| && numbers[i] == x;
    }
  }

  /** Seen from the upper end, gaps shrink by at most one each. */
  lemma {:induction false} GapAt(numbers: seq<nat>, a: nat, c: nat, j: nat)
    requires a <= c < |numbers| && Steady(numbers, a, c) && a + j + 1 <= c
    ensures numbers[c - j] + numbers[c - 1] + j >= numbers[c - 1 - j] + numbers[c]
  {
    if j > 0 {
      GapAt(numbers, a, c, j - 1);
      assert GapGrowsSlowly(numbers, c - 1 - j);
    }
  }

  /** The j gaps before the last gap g are at least (g - 1) + ... + (g - j) wide. */
  lemma {:induction false} GapSum(numbers: seq<nat>, a: nat, c: nat, j: nat, g: nat)
    requires a <= c < |numbers| && Steady(numbers, a, c) && a + j + 1 <= c && numbers[c - 1] + g == numbers[c]
    ensures 2 * numbers[c - 1] + j * (j + 1) >= 2 * numbers[c - 1 - j] + 2 * (j * g)
  {
    hide Steady;
    if j > 0 {
      GapSum(numbers, a, c, j - 1, g);
      GapAt(numbers, a, c, j);
      assert j * g == (j - 1) * g + g && j * (j + 1) == (j - 1) * j + 2 * j;
    }
  }

  /** In a steady interval that still holds a report, the last one before the upper end is not below the middle. */
  lemma UpperHalfTaken(numbers: seq<nat>, a: nat, c: nat)
    requires Ascending(numbers) && a + 1 < c < |numbers| && Steady(numbers, a, c)
    ensures numbers[a] + (numbers[c] - numbers[a]) / 2 <= numbers[c - 1]
  {
    assert GapGrowsSlowly(numbers, c - 2);
    assert numbers[a] <= numbers[c - 2];
  }

  /** The report a probe of a steady interval lands on. */
  lemma SteadyProbe(numbers: seq<nat>, a: nat, c: nat) returns (k: nat)
    requires Ascending(numbers) && a + 1 < c < |numbers| && Steady(numbers, a, c)
    ensures a < k < c && At(numbers, numbers[a] + (numbers[c] - numbers[a]) / 2) == Some(numbers[k])
    ensures numbers[k - 1] < numbers[a] + (numbers[c] - numbers[a]) / 2 <= numbers[k]
  {
    hide At, Steady;
    var mid := numbers[a] + (numbers[c] - numbers[a]) / 2;
    UpperHalfTaken(numbers, a, c);
    AtIsLeast(numbers, mid);
    assert numbers[c] in numbers && mid <= numbers[c];
    k :| 0 <= k < |numbers| && numbers[k] == At(numbers, mid).value;
    assert numbers[a] < numbers[a + 1] < numbers[c];
    assert numbers[c - 1] in numbers;
    if k > 0 {
      assert numbers[k - 1] in numbers && numbers[k - 1] < numbers[k];
    }
  }

  lemma SteadyWithin(numbers: seq<nat>, a: nat, c: nat, b: nat, d: nat)
    requires a <= b <= d <= c < |numbers| && Steady(numbers, a, c)
    ensures Steady(numbers, b, d)
  {}

  /** As many probes as there are reports between the ends suffice: every probe leaves one fewer. */
  lemma {:induction false} FewResolve(numbers: seq<nat>, a: nat, c: nat, t: nat)
    requires Ascending(numbers) && a < c < |numbers| && Steady(numbers, a, c) && c - a - 1 <= t
    ensures Resolves(numbers, numbers[a], numbers[c], t)
    decreases t
  {
    hide Ascending, Steady, At, NoneBetween;
    if c == a + 1 {
      Adjacent(numbers, a);
    } else {
      var k := SteadyProbe(numbers, a, c);
      SteadyWithin(numbers, a, c, a, k);
      SteadyWithin(numbers, a, c, k, c);
      FewResolve(numbers, a, k, t - 1);
      FewResolve(numbers, k, c, t - 1);
      Split(numbers, a, k, c, t);
    }
  }

  lemma Split(numbers: seq<nat>, a: nat, k: nat, c: nat, t: nat)
    requires Ascending(numbers) && a < k < c < |numbers| && 0 < t
    requires At(numbers, numbers[a] + (numbers[c] - numbers[a]) / 2) == Some(numbers[k])
    requires Resolves(numbers, numbers[a], numbers[k], t - 1) && Resolves(numbers, numbers[k], numbers[c], t - 1)
    ensures Resolves(numbers, numbers[a], numbers[c], t)
  {
    hide At, NoneBetween;
  }

  /** e, the distance from the lower end to the last report before the upper one, is within reach of t probes. */
  predicate WithinProbes(e: int, t: nat) { 2 * ((t + 2) * e) < 2 * Pow2(t) + (t + 1) * (t + 2) }

  /** Half an interval with more than t reports between its ends is within reach of t - 1 probes. */
  lemma HalvesWithin(e: nat, g: nat, t: nat, left: int, right: int)
    requires t >= 1 && e >= t + 1 && WithinProbes(e, t)
    requires 2 * ((t + 1) * g) <= 2 * e + (t + 1) * (t + 2)
    requires 2 * left <= e + g - 2 && 2 * right <= e
    ensures WithinProbes(left, t - 1) && WithinProbes(right, t - 1)
  {
    Times(t + 1, 2 * left, e + g - 2);
    Times(t + 1, 2 * right, e);
    Distribute(t, e, g, left, right);
    assert Pow2(t) == 2 * Pow2(t - 1);
  }

  lemma Times(x: nat, y: int, z: int)
    requires y <= z
    ensures x * y <= x * z
  {}

  lemma Distribute(t: nat, e: nat, g: nat, left: int, right: int)
    ensures (t + 2) * e == (t + 1) * e + e && (t + 1) * (t + 2) == t * (t + 1) + 2 * (t + 1)
    ensures (t + 1) * (e + g - 2) == (t + 1) * e + (t + 1) * g - 2 * (t + 1)
    ensures (t + 1) * (2 * left) == 2 * ((t + 1) * left) && (t + 1) * (2 * right) == 2 * ((t + 1) * right)
  {}

  lemma {:induction false} Spread(numbers: seq<nat>, i: nat, j: nat)
    requires Ascending(numbers) && i <= j < |numbers|
    ensures numbers[j] - numbers[i] >= j - i
    decreases j
  {
    if i < j {
      Spread(numbers, i, j - 1);
    }
  }

  lemma SteadySum(numbers: seq<nat>, a: nat, c: nat, t: nat)
    requires Ascending(numbers) && a < c < |numbers| && Steady(numbers, a, c) && c - a - 1 > t
    requires WithinProbes(numbers[c - 1] - numbers[a], t)
    ensures var e: int, g: int := numbers[c - 1] - numbers[a], numbers[c] - numbers[c - 1];
            && 1 <= t && t + 1 <= e && 0 < g && 2 * ((t + 1) * g) <= 2 * e + (t + 1) * (t + 2)
  {
    hide Steady;
    Spread(numbers, a, c - 1);
    Spread(numbers, a, c - 2 - t);
    Spread(numbers, c - 1, c);
    GapSum(numbers, a, c, t + 1, numbers[c] - numbers[c - 1]);
  }

  /** Steady numbering resolves: t probes master 2^t / (t + 2) numbers, whatever is missing. */
  lemma {:induction false} SteadyResolves(numbers: seq<nat>, a: nat, c: nat, t: nat)
    requires Ascending(numbers) && a < c < |numbers| && Steady(numbers, a, c)
    requires WithinProbes(numbers[c - 1] - numbers[a], t)
    ensures Resolves(numbers, numbers[a], numbers[c], t)
    decreases t
  {
    hide Ascending, Steady, At, NoneBetween, WithinProbes, Resolves;
    if c - a - 1 <= t {
      FewResolve(numbers, a, c, t);
    } else {
      Spread(numbers, a, c - 1);
      Spread(numbers, c - 1, c);
      var e: nat, g: nat := numbers[c - 1] - numbers[a], numbers[c] - numbers[c - 1];
      var k := SteadyProbe(numbers, a, c);
      SteadySum(numbers, a, c, t);
      var left: int, right: int := numbers[k - 1] as int - numbers[a], numbers[c - 1] as int - numbers[k];
      HalvesWithin(e, g, t, left, right);
      SteadyWithin(numbers, a, c, a, k);
      SteadyWithin(numbers, a, c, k, c);
      SteadyResolves(numbers, a, k, t - 1);
      SteadyResolves(numbers, k, c, t - 1);
      Split(numbers, a, k, c, t);
    }
  }

  /** The widest steady interval that 32 probes are sure to master: 2^32 / 34. */
  const STEADY_SPAN: nat := 126_322_567

  /** An answer is the first recent report when the final interval is steady and at most STEADY_SPAN wide. */
  lemma SeekIsLeastInSteadyInterval(reports: seq<Report>, since: Time, a: nat, c: nat)
    requires Bucket(reports) && Stamped(reports) && a < c < |reports| && Steady(Numbers(reports), a, c)
    requires FinalIntervalOf(reports, since) == Some(Interval(reports[a].number, reports[c].number))
    requires reports[c].number - reports[a].number <= STEADY_SPAN
    ensures var s := SeekStart(reports, since); s.StartAt? && LeastRecent(reports, since, s.number)
  {
    hide Bucket, Stamped, SeekStart, LeastRecent, FinalIntervalOf, Steady, Resolves, Ascending, Search, Bracket;
    var numbers := Numbers(reports);
    NumbersAscend(reports);
    Powers();
    Spread(numbers, a, c - 1);
    Spread(numbers, c - 1, c);
    SteadyResolves(numbers, a, c, MAX_PROBES);
    SeekIs(reports, since);
    NotRecentFirst(reports, since);
    SearchAnswers(reports, since, reports[a].number, reports[c].number, MAX_PROBES);
    SeekIsLeast(reports, since);
  }

  lemma NotRecentFirst(reports: seq<Report>, since: Time)
    requires FinalIntervalOf(reports, since).Some?
    ensures reports != [] && !Recent(reports[0], since)
  {}

  // ---- buckets on which the seek fails ------------------------------------------------------------------

  lemma AtThree(x: nat, y: nat, z: nat, m: nat)
    requires y < m <= z && x < m
    ensures At([x, y, z], m) == Some(z)
  {
    assert [x, y, z][1..] == [y, z] && [y, z][1..] == [z];
    assert At([x, y, z], m) == At([y, z], m) == At([z], m);
  }

  /** Missing numbers: the first probe of the gallop finds 150001, every probe of the binary search finds it again, and
      report 11 is missed. */
  lemma GapMisleadsSeek()
    ensures var reports := DatedFrom([1, 11, 150_001], 11);
            SeekStart(reports, 2) == StartAt(150_001) && LeastRecent(reports, 2, 11)
  {
    hide SeekStart, Search, Bracket, LeastRecent, DatedFrom, At, AtOrAfter;
    var numbers := [1, 11, 150_001];
    var reports := DatedFrom(numbers, 11);
    DatedIsBucket(numbers, 11);
    DatedLeast(numbers, 11);
    SeekIs(reports, 2);
    AtThree(1, 11, 150_001, 100_001);
    AtThree(1, 11, 150_001, 75_001);
    AtOfReports(reports, 100_001);
    DatedAt(numbers, 11, 100_001);
    assert FinalIntervalOf(reports, 2) == Some(Interval(1, 150_001));
    StuckOnUpperEnd(reports, 2, 1, 150_001, MAX_PROBES);
  }

  /** Fewer numbers than the first step: report 2 is recent and the seek answers nothing. */
  lemma RecentButUnanswered()
    ensures var reports := DatedFrom([1, 2], 2); SeekStart(reports, 2) == NotFound && LeastRecent(reports, 2, 2)
  {
    hide SeekStart, Search, Bracket, LeastRecent, DatedFrom, At, AtOrAfter;
    var reports := DatedFrom([1, 2], 2);
    DatedIsBucket([1, 2], 2);
    DatedLeast([1, 2], 2);
    SeekIs(reports, 2);
    AtIsLeast([1, 2], 100_001);
    AtOfReports(reports, 100_001);
    assert FinalIntervalOf(reports, 2) == None;
  }
}
