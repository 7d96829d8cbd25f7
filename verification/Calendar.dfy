/** UTC instants as nanoseconds since the Unix epoch, the proleptic Gregorian calendar,
    and the alignment of refresh windows to day, week and month buckets. */
module Calendar {

  type Time = int

  const DAY: int := 86_400_000_000_000
  const HOUR: int := 3_600_000_000_000
  /** Go's zero time.Time, midnight of 1 January of year 1. */
  const ZERO_TIME: Time := -719_162 * DAY

  predicate IsZero(t: Time) { t == ZERO_TIME }

  /** Number of the UTC day that contains t; day 0 is 1970-01-01. */
  function DayOf(t: Time): int { t / DAY }

  function AddDays(t: Time, n: int): Time { t + n * DAY }

  // ---- months ---------------------------------------------------------------
  // A month is numbered 12 * year + (month - 1).

  predicate IsLeap(y: int) { y % 4 == 0 && (y % 100 != 0 || y % 400 == 0) }

  function MonthLength(m: int): (n: int)
    ensures 28 <= n <= 31
  {
    var month := m % 12 + 1;
    if month == 2 then if IsLeap(m / 12) then 29 else 28
    else if month == 4 || month == 6 || month == 9 || month == 11 then 30
    else 31
  }

  const EPOCH_MONTH: int := 12 * 1970

  /** Day number of the first day of month m. */
  function MonthFirstDay(m: int): int
    decreases if m < EPOCH_MONTH then EPOCH_MONTH - m else m - EPOCH_MONTH
  {
    if m == EPOCH_MONTH then 0
    else if m > EPOCH_MONTH then MonthFirstDay(m - 1) + MonthLength(m - 1)
    else MonthFirstDay(m + 1) - MonthLength(m)
  }

  lemma NextMonth(m: int)
    ensures MonthFirstDay(m + 1) == MonthFirstDay(m) + MonthLength(m)
  {}

  lemma {:induction false} MonthsOrdered(m: int, n: int)
    requires m < n
    ensures MonthFirstDay(m) + 28 * (n - m) <= MonthFirstDay(n)
    decreases n - m
  {
    NextMonth(n - 1);
    if m < n - 1 {
      MonthsOrdered(m, n - 1);
    }
  }

  /** How many leap days the years 1 to y have. */
  function LeapDays(y: int): int { y / 4 - y / 100 + y / 400 }

  predicate IsLeapYear(y: int) { y % 4 == 0 && (y % 100 != 0 || y % 400 == 0) }

  lemma LeapDay(y: int)
    ensures LeapDays(y) - LeapDays(y - 1) == if IsLeapYear(y) then 1 else 0
  {
    Fourth(y);
    Hundredth(y);
    FourHundredth(y);
    if y % 100 == 0 {
      HundredByFour(y);
    }
  }

  lemma Fourth(y: int)
    ensures y / 4 - (y - 1) / 4 == if y % 4 == 0 then 1 else 0
  {}

  lemma ByHundred(q: int, r: int)
    requires 0 <= r < 100
    ensures (100 * q + r) / 100 == q && (100 * q + r) % 100 == r
  {}

  lemma ByFourHundred(q: int, r: int)
    requires 0 <= r < 400
    ensures (400 * q + r) / 400 == q && (400 * q + r) % 400 == r
  {}

  lemma Hundredth(y: int)
    ensures y / 100 - (y - 1) / 100 == if y % 100 == 0 then 1 else 0
  {
    var q, r := y / 100, y % 100;
    if r == 0 {
      ByHundred(q - 1, 99);
      assert y - 1 == 100 * (q - 1) + 99;
    } else {
      ByHundred(q, r - 1);
      assert y - 1 == 100 * q + (r - 1);
    }
  }

  lemma ByFour(q: int)
    ensures (4 * q) % 4 == 0
  {}

  lemma HundredByFour(y: int)
    requires y % 100 == 0
    ensures y % 4 == 0
  {
    ByFour(25 * (y / 100));
  }

  lemma FourHundredth(y: int)
    ensures y / 400 - (y - 1) / 400 == if y % 400 == 0 then 1 else 0
    ensures y % 400 == 0 ==> y % 100 == 0
  {
    var q, r := y / 400, y % 400;
    if r == 0 {
      ByFourHundred(q - 1, 399);
      ByHundred(4 * q, 0);
      assert y - 1 == 400 * (q - 1) + 399 && y == 100 * (4 * q) + 0;
    } else {
      ByFourHundred(q, r - 1);
      assert y - 1 == 400 * q + (r - 1);
    }
  }

  /** Days from the first of January to the first of month m. */
  function DaysBefore(y: int, m: int): int {
    (367 * m - 362) / 12 - if m <= 2 then 0 else if IsLeapYear(y) then 1 else 2
  }

  lemma MonthIs(y: int, m: int)
    requires 1 <= m <= 12
    ensures MonthLength(12 * y + m - 1) ==
            if m in {4, 6, 9, 11} then 30 else if m != 2 then 31 else if IsLeapYear(y) then 29 else 28
  {
    assert (12 * y + m - 1) % 12 == m - 1 && (12 * y + m - 1) / 12 == y;
  }

  lemma DaysBeforeNext(y: int, m: int)
    requires 1 <= m < 12
    ensures DaysBefore(y, m + 1) - DaysBefore(y, m) ==
            if m in {4, 6, 9, 11} then 30 else if m != 2 then 31 else if IsLeapYear(y) then 29 else 28
  {}

  /** The months of a year follow each other by the usual lengths. */
  lemma {:induction false} MonthsOfYear(y: int, m: int)
    requires 1 <= m <= 12
    ensures MonthFirstDay(12 * y + m - 1) == MonthFirstDay(12 * y) + DaysBefore(y, m)
    decreases m
  {
    hide MonthFirstDay, MonthLength, IsLeapYear;
    if m > 1 {
      MonthsOfYear(y, m - 1);
      NextMonth(12 * y + m - 2);
      MonthIs(y, m - 1);
      DaysBeforeNext(y, m - 1);
      assert 12 * y + m - 2 + 1 == 12 * y + m - 1 && 12 * y + (m - 1) - 1 == 12 * y + m - 2;
    } else {
      assert 12 * y + m - 1 == 12 * y;
    }
  }

  lemma YearLength(y: int)
    ensures MonthFirstDay(12 * (y + 1)) == MonthFirstDay(12 * y) + 365 + LeapDays(y) - LeapDays(y - 1)
  {
    hide MonthFirstDay, MonthLength, LeapDays;
    MonthsOfYear(y, 12);
    NextMonth(12 * y + 11);
    MonthIs(y, 12);
    assert 12 * y + 12 - 1 == 12 * y + 11 && 12 * y + 11 + 1 == 12 * (y + 1);
    LeapDay(y);
  }

  /** The first day of every year, from 1 January 1970: the Gregorian calendar, before and after. */
  lemma {:induction false} YearStart(y: int)
    ensures MonthFirstDay(12 * y) == 365 * (y - 1970) + LeapDays(y - 1) - LeapDays(1969)
    decreases if y < 1970 then 1970 - y else y - 1970
  {
    if y > 1970 {
      YearStart(y - 1);
      YearLength(y - 1);
    } else if y < 1970 {
      YearStart(y + 1);
      YearLength(y);
    }
  }

  /** The zero time is midnight of 1 January of year 1. */
  lemma ZeroTimeIs()
    ensures ZERO_TIME == MonthFirstDay(12 * 1) * DAY && DAY == 24 * 60 * 60 * 1_000_000_000
  {
    hide MonthFirstDay;
    YearStart(1);
  }

  /** The month that contains day d, searched from month m. */
  function MonthFrom(d: int, m: int): (r: int)
    ensures MonthFirstDay(r) <= d < MonthFirstDay(r + 1)
    decreases if d < MonthFirstDay(m) then MonthFirstDay(m) - d else d - MonthFirstDay(m)
  {
    if d < MonthFirstDay(m) then
      NextMonth(m - 1);
      if MonthFirstDay(m - 1) <= d then m - 1 else MonthFrom(d, m - 1)
    else if MonthFirstDay(m + 1) <= d then
      NextMonth(m);
      MonthFrom(d, m + 1)
    else m
  }

  function MonthOf(d: int): (m: int)
    ensures MonthFirstDay(m) <= d < MonthFirstDay(m + 1)
  {
    MonthFrom(d, EPOCH_MONTH)
  }

  lemma MonthUnique(d: int, m: int)
    requires MonthFirstDay(m) <= d < MonthFirstDay(m + 1)
    ensures MonthOf(d) == m
  {
    var r := MonthOf(d);
    if r < m { if r + 1 < m { MonthsOrdered(r + 1, m); } }
    if m < r { if m + 1 < r { MonthsOrdered(m + 1, r); } }
  }

  /** time.AddDate(0, n, 0): the same day of month n months on, an overflowing day running into the month after. */
  function AddMonths(t: Time, n: int): Time {
    var m := MonthOf(DayOf(t));
    t + (MonthFirstDay(m + n) - MonthFirstDay(m)) * DAY
  }

  /** The distance from the start of the month is kept. */
  lemma AddMonthsSays(t: Time, n: int)
    ensures var m := MonthOf(DayOf(t));
            AddMonths(t, n) - MonthFirstDay(m + n) * DAY == t - MonthFirstDay(m) * DAY
  {}

  // ---- the alignment functions ------------------------------------------------

  function DayStart(t: Time): Time { DayOf(t) * DAY }

  /** time.Weekday of a day: Sunday is 0; 1970-01-01 was a Thursday. */
  function Weekday(d: int): int { (d + 4) % 7 }

  function WeekStart(t: Time): Time {
    var weekday := Weekday(DayOf(t));
    AddDays(DayStart(t), -((if weekday == 0 then 7 else weekday) - 1))
  }

  function MonthStart(t: Time): Time { MonthFirstDay(MonthOf(DayOf(t))) * DAY }

  datatype Window = Daily | Weekly | Monthly

  function AlignRefreshWindow(w: Window, from: Time, to: Time): (Time, Time) {
    match w
    case Daily => (DayStart(from), AddDays(DayStart(to), 1))
    case Weekly => (WeekStart(from), AddDays(WeekStart(to), 7))
    case Monthly => (MonthStart(from), AddMonths(MonthStart(to), 1))
  }

  function PreviousSummaryWindow(w: Window, from: Time, to: Time): (Time, Time) {
    match w
    case Weekly => (AddDays(from, -7), AddDays(to, -7))
    case Monthly => (AddMonths(from, -1), AddMonths(to, -1))
    case Daily => (AddDays(from, -1), AddDays(to, -1))
  }

  // ---- time_bucket ------------------------------------------------------------
  // The database numbers its buckets from its own origin: weeks from Monday
  // 2000-01-03 (day 10959), months from 2000-01.

  const WEEK_ORIGIN: int := 10_959
  const MONTH_ORIGIN: int := 24_000

  /** The number of the bucket that contains t. */
  function BucketIndex(w: Window, t: Time): int {
    match w
    case Daily => DayOf(t)
    case Weekly => (DayOf(t) - WEEK_ORIGIN) / 7
    case Monthly => MonthOf(DayOf(t)) - MONTH_ORIGIN
  }

  function BucketAt(w: Window, i: int): Time {
    match w
    case Daily => i * DAY
    case Weekly => (WEEK_ORIGIN + 7 * i) * DAY
    case Monthly => MonthFirstDay(MONTH_ORIGIN + i) * DAY
  }

  /** time_bucket(interval, t). */
  function TimeBucket(w: Window, t: Time): Time { BucketAt(w, BucketIndex(w, t)) }

  /** t + interval (n = 1), or t - interval (n = -1). */
  function AddInterval(w: Window, t: Time, n: int): Time {
    match w
    case Daily => AddDays(t, n)
    case Weekly => AddDays(t, 7 * n)
    case Monthly => AddMonths(t, n)
  }

  lemma BucketHolds(w: Window, t: Time)
    ensures BucketAt(w, BucketIndex(w, t)) <= t < BucketAt(w, BucketIndex(w, t) + 1)
  {
    var d := DayOf(t);
    assert d * DAY <= t < (d + 1) * DAY;
  }

  lemma BucketsOrdered(w: Window, i: int, j: int)
    ensures i < j <==> BucketAt(w, i) < BucketAt(w, j)
  {
    if w == Monthly {
      if i < j { MonthsOrdered(MONTH_ORIGIN + i, MONTH_ORIGIN + j); }
      if j < i { MonthsOrdered(MONTH_ORIGIN + j, MONTH_ORIGIN + i); }
    }
  }

  lemma IndexOfBucket(w: Window, i: int)
    ensures BucketIndex(w, BucketAt(w, i)) == i
  {
    BucketHolds(w, BucketAt(w, i));
    var j := BucketIndex(w, BucketAt(w, i));
    BucketsOrdered(w, i, j);
    BucketsOrdered(w, i, j + 1);
  }

  lemma AddIntervalToBucket(w: Window, i: int, n: int)
    requires n == 1 || n == -1
    ensures AddInterval(w, BucketAt(w, i), n) == BucketAt(w, i + n)
  {
    if w == Monthly {
      var m := MONTH_ORIGIN + i;
      assert DayOf(BucketAt(w, i)) == MonthFirstDay(m);
      NextMonth(m);
      MonthUnique(MonthFirstDay(m), m);
    }
  }

  /** The service aligns windows to the very buckets the database groups by. */
  lemma AlignmentMatchesBuckets(w: Window, from: Time, to: Time)
    ensures AlignRefreshWindow(w, from, to) == (TimeBucket(w, from), BucketAt(w, BucketIndex(w, to) + 1))
  {
    AddIntervalToBucket(w, BucketIndex(w, to), 1);
    if w == Weekly {
      WeekStartIsBucket(from);
      WeekStartIsBucket(to);
    }
  }

  lemma WeekStartIsBucket(t: Time)
    ensures WeekStart(t) == TimeBucket(Weekly, t)
  {
    var d := DayOf(t);
    assert (d + 3) % 7 == (d - WEEK_ORIGIN) % 7;
    assert (d - WEEK_ORIGIN) - 7 * ((d - WEEK_ORIGIN) / 7) == (d - WEEK_ORIGIN) % 7;
    assert (if Weekday(d) == 0 then 7 else Weekday(d)) - 1 == (d + 3) % 7;
  }

  ghost predicate Aligned(w: Window, t: Time) { TimeBucket(w, t) == t }

  /** An instant lies before an aligned end exactly when its bucket starts before it. */
  lemma BeforeAligned(w: Window, t: Time, end: Time)
    requires Aligned(w, end)
    ensures t < end <==> TimeBucket(w, t) < end
  {
    BucketHolds(w, t);
    var i, e := BucketIndex(w, t), BucketIndex(w, end);
    BucketsOrdered(w, i, e);
    BucketsOrdered(w, e, i + 1);
  }

  /** A window with aligned ends contains an instant exactly when it contains the whole bucket. */
  lemma NoBucketSplit(w: Window, from: Time, to: Time, t: Time)
    requires Aligned(w, from) && Aligned(w, to)
    ensures from <= t < to <==> from <= TimeBucket(w, t) < to
  {
    BeforeAligned(w, t, from);
    BeforeAligned(w, t, to);
  }

  lemma RefreshWindowAligned(w: Window, from: Time, to: Time)
    ensures var (f, t) := AlignRefreshWindow(w, from, to); Aligned(w, f) && Aligned(w, t) && f <= from && to < t
    ensures from <= to ==> var (f, t) := AlignRefreshWindow(w, from, to); f < t
  {
    AlignmentMatchesBuckets(w, from, to);
    IndexOfBucket(w, BucketIndex(w, from));
    IndexOfBucket(w, BucketIndex(w, to) + 1);
    BucketHolds(w, from);
    BucketHolds(w, to);
  }

  /** t lies before the bucket start one interval before end exactly when its bucket, moved on, starts before end. */
  lemma ShiftBefore(w: Window, t: Time, end: Time)
    requires Aligned(w, end)
    ensures t < AddInterval(w, end, -1) <==> AddInterval(w, TimeBucket(w, t), 1) < end
  {
    var i, e := BucketIndex(w, t), BucketIndex(w, end);
    AddIntervalToBucket(w, e, -1);
    AddIntervalToBucket(w, i, 1);
    IndexOfBucket(w, e - 1);
    BeforeAligned(w, t, BucketAt(w, e - 1));
    BucketsOrdered(w, i, e - 1);
    BucketsOrdered(w, i + 1, e);
  }

  /** The previous window holds exactly the instants whose bucket, moved on by one interval, is in the window. */
  lemma PreviousWindowShifts(w: Window, from: Time, to: Time, t: Time)
    requires Aligned(w, from) && Aligned(w, to)
    ensures var (pf, pt) := PreviousSummaryWindow(w, from, to);
            pf <= t < pt <==> from <= AddInterval(w, TimeBucket(w, t), 1) < to
  {
    assert PreviousSummaryWindow(w, from, to) == (AddInterval(w, from, -1), AddInterval(w, to, -1));
    ShiftBefore(w, t, from);
    ShiftBefore(w, t, to);
  }
}
