/** The candidates of an OCI run: the listing from the sought start, page by page, filtered and put newest first. */
module OciListing {
  import opened Calendar
  import opened Numerals
  import opened OciNames
  import opened OciSeek
  import opened OciSeekExact

  /** Position of the first report whose name is not before start. */
  function From(reports: seq<Report>, start: string): (i: nat)
    ensures i <= |reports|
  {
    if reports == [] || !Before(Name(reports[0]), start) then 0 else 1 + From(reports[1..], start)
  }

  lemma {:induction false} FromAt(reports: seq<Report>, start: string, k: nat)
    requires k <= |reports| && (forall j :: 0 <= j < k ==> Before(Name(reports[j]), start))
    requires k < |reports| ==> !Before(Name(reports[k]), start)
    ensures From(reports, start) == k
  {
    hide Before, Name;
    if k > 0 {
      FromAt(reports[1..], start, k - 1);
    }
  }

  lemma NameNotEmpty(r: Report)
    ensures Name(r) != ""
  {}

  /** A report's own name leads to the report. */
  lemma FromOwnName(reports: seq<Report>, k: nat)
    requires Bucket(reports) && k < |reports|
    ensures From(reports, Name(reports[k])) == k && Name(reports[k]) != ""
  {
    hide Before, From, Name;
    forall j | 0 <= j < k ensures Before(Name(reports[j]), Name(reports[k])) {
      ListedInNameOrder(reports[j], reports[k]);
    }
    NotBeforePrefix(Name(reports[k]), "");
    assert Name(reports[k]) + "" == Name(reports[k]);
    FromAt(reports, Name(reports[k]), k);
    NameNotEmpty(reports[k]);
  }

  /** The start name of a number leads to the first report with that number or a higher one. */
  lemma {:induction false} FromStartName(reports: seq<Report>, n: nat)
    requires Bucket(reports) && n < SIXTEEN_DIGITS
    ensures var i := From(reports, StartName(n));
            (forall j :: 0 <= j < i ==> reports[j].number < n)
                && (forall j :: i <= j < |reports| ==> n <= reports[j].number)
  {
    hide Before, Name, StartName;
    if reports != [] {
      NameOrder(reports[0], n);
      if reports[0].number < n {
        FromStartName(reports[1..], n);
        var i := From(reports[1..], StartName(n));
        assert forall j :: 1 <= j < |reports| ==> reports[j] == reports[1..][j - 1];
      }
    }
  }

  const MAX_PAGE := 1000

  /** One page: at least one object when there is any left, and the name to go on from unless the listing is over. */
  method ListObjectsPage(reports: seq<Report>, start: string, limit: nat)
    returns (failed: bool, page: seq<Report>, nextStart: string)
    requires 1 <= limit
    ensures !failed ==>
      var i := From(reports, start);
      && i + |page| <= |reports| && page == reports[i..i + |page|] && |page| <= limit && (i < |reports| ==> page != [])
      && nextStart == if i + |page| < |reports| then Name(reports[i + |page|]) else ""
  {
    hide From, Before, Name;
    failed, page, nextStart := false, [], "";
    var fails: bool := *;
    if fails { return true, [], ""; }
    var i := From(reports, start);
    if i == |reports| { return; }
    var most := if |reports| - i < limit then |reports| - i else limit;
    var size: nat :| 1 <= size <= most;
    page := reports[i..i + size];
    nextStart := if i + size < |reports| then Name(reports[i + size]) else "";
  }

  /** A limit of zero or less is no limit. */
  function Limited(objects: seq<Report>, limit: int): seq<Report> {
    if 0 < limit < |objects| then objects[..limit] else objects
  }

  /** The first objects, as many as the limit lets through. */
  lemma LimitedIs(objects: seq<Report>, limit: int)
    ensures Limited(objects, limit) <= objects
    ensures |Limited(objects, limit)| == if limit >= 1 && limit <= |objects| then limit else |objects|
  {}

  /** The tokens used so far are names of reports up to here. */
  ghost predicate TokensBehind(tokens: set<string>, reports: seq<Report>, position: nat) {
    forall t :: t in tokens ==> exists k :: 0 <= k < |reports| && k <= position && t == Name(reports[k])
  }

  lemma NoTokens(reports: seq<Report>, position: nat)
    ensures TokensBehind({}, reports, position)
  {}

  lemma NewToken(tokens: set<string>, reports: seq<Report>, position: nat, next: nat)
    requires Bucket(reports) && TokensBehind(tokens, reports, position) && position < next < |reports|
    ensures Name(reports[next]) !in tokens && TokensBehind(tokens + {Name(reports[next])}, reports, next)
  {
    hide Name, Bucket, From;
    if Name(reports[next]) in tokens {
      var k :| 0 <= k < |reports| && k <= position && Name(reports[next]) == Name(reports[k]);
      FromOwnName(reports, k);
      FromOwnName(reports, next);
    }
  }

  /** On a static bucket the pages join up to the listing from start, cut at the limit, and no page token repeats. */
  method ListObjectsFrom(reports: seq<Report>, start: string, limit: int)
    returns (failed: bool, repeated: bool, out: seq<Report>)
    requires Bucket(reports)
    ensures !repeated
    ensures !failed ==> out == Limited(reports[From(reports, start)..], limit)
  {
    hide From, Name, Bucket, TokensBehind, Before, Padded, Decimal;
    failed, repeated, out := false, false, [];
    var from := start;
    var seenPageStart: set<string> := {};
    ghost var origin := From(reports, start);
    NoTokens(reports, origin);
    while true
      invariant !failed && !repeated && origin + |out| <= |reports| && out == reports[origin..origin + |out|]
      invariant From(reports, from) == origin + |out|
      invariant 0 < limit ==> |out| < limit
      invariant TokensBehind(seenPageStart, reports, origin + |out|)
      decreases |reports| - |out|
    {
      var cancelled: bool := *;
      if cancelled { return true, false, []; }
      var pageLimit := if 0 < limit && limit - |out| < MAX_PAGE then limit - |out| else MAX_PAGE;
      var page, nextStart;
      failed, page, nextStart := ListObjectsPage(reports, from, pageLimit);
      if failed { return true, false, []; }
      if |page| == 0 { return; }
      ghost var position := origin + |out|;
      out := out + page;
      if 0 < limit && |out| >= limit { return; }
      if nextStart == "" {
        EndOfListing(reports, origin + |out|);
        return;
      }
      NewToken(seenPageStart, reports, position, origin + |out|);
      FromOwnName(reports, origin + |out|);
      if nextStart in seenPageStart { return false, true, out; }
      seenPageStart := seenPageStart + {nextStart};
      from := nextStart;
    }
  }

  lemma EndOfListing(reports: seq<Report>, position: nat)
    requires Bucket(reports) && position <= |reports|
        && (if position < |reports| then Name(reports[position]) else "") == ""
    ensures position == |reports|
  {
    if position < |reports| {
      FromOwnName(reports, position);
    }
  }

  // ---- recent reports, newest first --------------------------------------------------------

  predicate KeptBy(r: Report, cutoff: Time) { IsZero(r.modified) || r.modified >= cutoff }

  function Kept(objects: seq<Report>, cutoff: Time): seq<Report> {
    if objects == [] then []
    else
      Kept(objects[..|objects| - 1], cutoff) +
      if KeptBy(objects[|objects| - 1], cutoff) then [objects[|objects| - 1]] else []
  }

  /** The order of the sort: modified later, or at the same time and with the greater name. */
  predicate Newer(a: Report, b: Report) {
    a.modified > b.modified || (a.modified == b.modified && Before(Name(b), Name(a)))
  }

  /** A stable sort, by insertion. */
  function InsertSorted(sorted: seq<Report>, r: Report): seq<Report> {
    if sorted == [] || Newer(r, sorted[0]) then [r] + sorted else [sorted[0]] + InsertSorted(sorted[1..], r)
  }

  function SortedNewestFirst(objects: seq<Report>): seq<Report> {
    if objects == [] then [] else InsertSorted(SortedNewestFirst(objects[..|objects| - 1]), objects[|objects| - 1])
  }

  function Reversed(objects: seq<Report>): seq<Report> {
    if objects == [] then [] else [objects[|objects| - 1]] + Reversed(objects[..|objects| - 1])
  }

  lemma {:induction false} ReversedAt(objects: seq<Report>)
    ensures |Reversed(objects)| == |objects|
    ensures forall i :: 0 <= i < |objects| ==> Reversed(objects)[i] == objects[|objects| - 1 - i]
  {
    if objects != [] {
      ReversedAt(objects[..|objects| - 1]);
    }
  }

  lemma ReversedMembers(objects: seq<Report>)
    ensures forall r :: r in Reversed(objects) <==> r in objects
  {
    hide Reversed;
    ReversedAt(objects);
    forall r | r in objects ensures r in Reversed(objects) {
      var j :| 0 <= j < |objects| && objects[j] == r;
      assert Reversed(objects)[|objects| - 1 - j] == r;
    }
  }

  /** In a bucket the newest reports are the last ones: sorting reverses the listing. */
  lemma {:induction false} SortReverses(objects: seq<Report>)
    requires Bucket(objects)
    ensures SortedNewestFirst(objects) == Reversed(objects)
  {
    hide Before, Name;
    if |objects| > 1 {
      var init, last := objects[..|objects| - 1], objects[|objects| - 1];
      SortReverses(init);
      ListedInNameOrder(init[|init| - 1], last);
      assert Newer(last, init[|init| - 1]);
      assert Reversed(init)[0] == init[|init| - 1];
    } else if |objects| == 1 {
      assert objects[..0] == [];
    }
  }

  /** r comes after all of the reports. */
  ghost predicate Follows(reports: seq<Report>, r: Report) {
    && r.number < SIXTEEN_DIGITS && GoodSuffix(r.suffix)
    && forall q :: q in reports ==> q.number < r.number && q.modified <= r.modified
  }

  lemma EmptyBucket()
    ensures Bucket([])
  {}

  lemma BucketSnoc(reports: seq<Report>, r: Report)
    requires Bucket(reports) && Follows(reports, r)
    ensures Bucket(reports + [r])
  {}

  lemma BucketSplit(reports: seq<Report>)
    requires Bucket(reports) && reports != []
    ensures Bucket(reports[..|reports| - 1]) && Follows(reports[..|reports| - 1], reports[|reports| - 1])
  {}

  lemma {:induction false} KeptInOrder(objects: seq<Report>, cutoff: Time)
    requires Bucket(objects)
    ensures Bucket(Kept(objects, cutoff))
    ensures forall r :: r in Kept(objects, cutoff) <==> r in objects && KeptBy(r, cutoff)
  {
    hide Bucket, KeptBy;
    if objects != [] {
      var init, last := objects[..|objects| - 1], objects[|objects| - 1];
      BucketSplit(objects);
      KeptInOrder(init, cutoff);
      BucketSnoc(Kept(init, cutoff), last);
      assert Kept(init, cutoff) + [] == Kept(init, cutoff);
    } else {
      EmptyBucket();
    }
  }

  /** Descending numbers: no candidate twice, the newest first. */
  ghost predicate NewestFirst(candidates: seq<Report>) {
    forall i, j :: 0 <= i < j < |candidates| ==>
        candidates[i].number > candidates[j].number && candidates[i].modified >= candidates[j].modified
  }

  /** The reports of the listing that are not too old. */
  ghost predicate CandidatesFrom(candidates: seq<Report>, listed: seq<Report>, since: Time) {
    NewestFirst(candidates) &&
    forall r :: r in candidates <==> r in listed && (r.modified == ZERO_TIME || r.modified >= since - DAY)
  }

  lemma CandidatesOfListing(listed: seq<Report>, since: Time)
    requires Bucket(listed)
    ensures CandidatesFrom(SortedNewestFirst(Kept(listed, AddDays(since, -1))), listed, since)
  {
    var kept := Kept(listed, AddDays(since, -1));
    KeptInOrder(listed, AddDays(since, -1));
    SortReverses(kept);
    ReversedAt(kept);
    ReversedMembers(kept);
  }

  method FilterRecent(objects: seq<Report>, cutoff: Time) returns (filtered: seq<Report>)
    ensures filtered == Kept(objects, cutoff)
  {
    filtered := [];
    for i := 0 to |objects|
      invariant filtered == Kept(objects[..i], cutoff)
    {
      assert objects[..i + 1][..i] == objects[..i];
      if !IsZero(objects[i].modified) && objects[i].modified < cutoff { continue; }
      filtered := filtered + [objects[i]];
    }
    assert objects[..|objects|] == objects;
  }

  /** Every report modified since then is a candidate. */
  ghost predicate AllRecentListed(reports: seq<Report>, candidates: seq<Report>, since: Time) {
    forall r :: r in reports && Recent(r, since) ==> r in candidates
  }

  /** Where the listing of candidates starts. */
  function StartFor(seek: Seek): string { if seek.StartAt? then StartName(seek.number) else "" }

  function StartIndex(reports: seq<Report>, seek: Seek): nat { From(reports, StartFor(seek)) }

  /** The limit lets position k through when the listing starts at i. */
  predicate Reached(i: nat, k: nat, limit: int) { i <= k && (limit <= 0 || k < i + limit) }

  /** The recent candidates are the recent reports that the limit reaches from i. */
  ghost predicate RecentReached(reports: seq<Report>, candidates: seq<Report>, since: Time, i: nat, limit: int) {
    forall k :: 0 <= k < |reports| && Recent(reports[k], since) ==> (reports[k] in candidates <==> Reached(i, k, limit))
  }

  /** The candidates are the reports listed from the sought start that are not too old, newest first and each once. A
      recent report is one exactly when the limit reaches it from the report the seek answered, or from the first of all
      when the seek answered nothing. */
  method ListRecentCostReportObjects(reports: seq<Report>, since: Time, limit: int)
    returns (failed: bool, candidates: seq<Report>)
    requires Bucket(reports)
    ensures !failed ==>
      CandidatesFrom(candidates, Limited(reports[StartIndex(reports, SeekStart(reports, since))..], limit), since)
    ensures !failed ==> forall r :: r in candidates ==> r in reports
    ensures !failed ==> RecentReached(reports, candidates, since, StartIndex(reports, SeekStart(reports, since)), limit)
  {
    hide NewestFirst, Bucket, SafeStart, From, Kept, SortedNewestFirst, Limited, StartName, KeptBy, SeekStart,
         RecentReached;
    var seek, listings := FindCostReportStartNumber(reports, since);
    if seek.Failed? { return true, []; }
    var start := if seek.StartAt? then StartName(seek.number) else "";
    var repeated, objects;
    failed, repeated, objects := ListObjectsFrom(reports, start, limit);
    if failed || repeated { return true, []; }
    ListedSlice(reports, start, limit);
    var filtered := FilterRecent(objects, AddDays(since, -1));
    CandidatesOfListing(objects, since);
    candidates := SortedNewestFirst(filtered);
    RecentAreReached(reports, since, limit, From(reports, start), candidates);
  }

  lemma RecentAreReached(reports: seq<Report>, since: Time, limit: int, i: nat, candidates: seq<Report>)
    requires Bucket(reports) && i <= |reports| && CandidatesFrom(candidates, Limited(reports[i..], limit), since)
    ensures RecentReached(reports, candidates, since, i, limit)
  {
    hide Bucket, NewestFirst;
    var listed := Limited(reports[i..], limit);
    forall k | 0 <= k < |reports| && Recent(reports[k], since)
        ensures reports[k] in candidates <==> Reached(i, k, limit) {
      if Reached(i, k, limit) {
        assert listed[k - i] == reports[k];
      }
      if reports[k] in listed {
        var j :| 0 <= j < |listed| && listed[j] == reports[k];
        SamePosition(reports, i + j, k);
      }
    }
  }

  lemma SamePosition(reports: seq<Report>, i: nat, k: nat)
    requires Bucket(reports) && i < |reports| && k < |reports| && reports[i] == reports[k]
    ensures i == k
  {}

  /** The listing starts at the report the seek answered, or at the first. */
  lemma StartIndexIs(reports: seq<Report>, seek: Seek, since: Time)
    requires Bucket(reports) && (seek.StartAt? ==> SafeStart(reports, since, seek.number))
    ensures var i := StartIndex(reports, seek);
            if seek.StartAt? then i < |reports| && reports[i].number == seek.number else i == 0
  {
    hide Name, StartName, Before, Bucket, From;
    if seek.StartAt? {
      var r :| r in reports && r.number == seek.number && Recent(r, since);
      NumberOfListed(reports, r);
      FromStartName(reports, seek.number);
      var k := IndexOf(reports, r);
      var i := From(reports, StartName(seek.number));
      NumbersOrdered(reports, i, k);
    } else {
      FromNothing(reports);
    }
  }

  lemma NumbersOrdered(reports: seq<Report>, i: nat, k: nat)
    requires Bucket(reports) && i <= k < |reports|
    ensures reports[i].number <= reports[k].number && (i < k ==> reports[i].number < reports[k].number)
  {}

  /** Every recent report is a candidate exactly when the seek answered the first one, or nothing, and the limit reaches
      the last one. */
  lemma NoRecentMissedIff(reports: seq<Report>, since: Time, limit: int, candidates: seq<Report>)
    requires Bucket(reports) && reports != [] && Recent(reports[|reports| - 1], since)
    requires RecentReached(reports, candidates, since, StartIndex(reports, SeekStart(reports, since)), limit)
    ensures AllRecentListed(reports, candidates, since) <==>
            && (var s := SeekStart(reports, since); s.StartAt? ==> LeastRecent(reports, since, s.number))
            && (limit <= 0 || |reports| <= StartIndex(reports, SeekStart(reports, since)) + limit)
  {
    hide Bucket, SeekStart, SafeStart, LeastRecent, StartIndex, IsReport;
    var s := SeekStart(reports, since);
    var i := StartIndex(reports, s);
    SeekIsSafe(reports, since);
    StartIndexIs(reports, s, since);
    assert reports[|reports| - 1] in reports;
    if s.StartAt? && !LeastRecent(reports, since, s.number) {
      MissedBelow(reports, since, i, limit, candidates);
    } else {
      forall k | 0 <= k < |reports| && Recent(reports[k], since) ensures i <= k {
        NotBeforeStart(reports, since, i, k);
      }
      if limit <= 0 || |reports| <= i + limit {
        forall r | r in reports && Recent(r, since) ensures r in candidates {
          var k := IndexOf(reports, r);
        }
      }
    }
  }

  /** A recent report below a start that is not the first recent one is missed. */
  lemma MissedBelow(reports: seq<Report>, since: Time, i: nat, limit: int, candidates: seq<Report>)
    requires Bucket(reports) && i < |reports| && SafeStart(reports, since, reports[i].number)
    requires !LeastRecent(reports, since, reports[i].number)
    requires RecentReached(reports, candidates, since, i, limit)
    ensures !AllRecentListed(reports, candidates, since)
  {
    var q :| q in reports && Recent(q, since) && q.number < reports[i].number;
    var k := IndexOf(reports, q);
    assert !Reached(i, k, limit);
  }

  // ---- which buckets lose no recent report -------------------------------------------------------

  /** A listing on this bucket, with this window and limit, makes every recent report a candidate. */
  ghost predicate MissesNone(reports: seq<Report>, since: Time, limit: int) {
    forall candidates ::
      RecentReached(reports, candidates, since, StartIndex(reports, SeekStart(reports, since)), limit) ==>
      AllRecentListed(reports, candidates, since)
  }

  /** Whatever the dating and the window, no recent report is missed. */
  ghost predicate NeverMisses(numbers: seq<nat>, limit: int) {
    forall reports, since ::
      Bucket(reports) && Stamped(reports) && Numbers(reports) == numbers ==> MissesNone(reports, since, limit)
  }

  /** The numbers alone decide: no recent report is ever missed exactly when they resolve wherever the gallop may end
      and the limit cuts nothing. */
  lemma NoneMissedIff(numbers: seq<nat>, limit: int)
    requires Ascending(numbers) && numbers != []
    ensures NeverMisses(numbers, limit) <==> SeekResolves(numbers) && (limit <= 0 || |numbers| <= limit)
  {
    hide Ascending, Bucket, Stamped, MissesNone, SeekResolves, StartIndex, SeekStart, LeastRecent;
    if !SeekResolves(numbers) {
      var reports := SeekMisled(numbers);
      Misses(reports, 2, limit);
    } else if limit <= 0 || |numbers| <= limit {
      forall reports, since | Bucket(reports) && Stamped(reports) && Numbers(reports) == numbers
        ensures MissesNone(reports, since, limit)
      {
        if SeekStart(reports, since).StartAt? {
          ResolvedSeekIsLeast(reports, since);
        }
        Keeps(reports, since, limit);
      }
    } else {
      AllDatedRecent(numbers);
      Misses(DatedFrom(numbers, 0), 2, limit);
    }
  }

  lemma SeekMisled(numbers: seq<nat>) returns (reports: seq<Report>)
    requires Ascending(numbers) && numbers != [] && !SeekResolves(numbers)
    ensures Bucket(reports) && Stamped(reports) && Numbers(reports) == numbers
    ensures SeekStart(reports, 2).StartAt? && !LeastRecent(reports, 2, SeekStart(reports, 2).number)
    ensures Recent(reports[|reports| - 1], 2)
  {
    hide Ascending, Bucket, Stamped, SeekStart, LeastRecent, GallopResolves, GallopMisled;
    var b := UnresolvedGallopMisleads(numbers, numbers[0], numbers[0] + INITIAL_STEP, 0);
    MisledSeek(numbers, b);
    reports := DatedFrom(numbers, b);
    LastIsRecent(reports, 2);
  }

  /** Where the condition of NoRecentMissedIff holds, or nothing is recent, no recent report is missed. */
  lemma Keeps(reports: seq<Report>, since: Time, limit: int)
    requires Bucket(reports) && reports != [] && (limit <= 0 || |reports| <= limit)
    requires var s := SeekStart(reports, since); s.StartAt? ==> LeastRecent(reports, since, s.number)
    ensures MissesNone(reports, since, limit)
  {
    hide Bucket, SeekStart, LeastRecent, StartIndex, RecentReached, AllRecentListed;
    forall candidates |
        RecentReached(reports, candidates, since, StartIndex(reports, SeekStart(reports, since)), limit)
      ensures AllRecentListed(reports, candidates, since)
    {
      if Recent(reports[|reports| - 1], since) {
        NoRecentMissedIff(reports, since, limit, candidates);
      } else {
        NoneRecent(reports, since, candidates);
      }
    }
  }

  lemma NoneRecent(reports: seq<Report>, since: Time, candidates: seq<Report>)
    requires Bucket(reports) && reports != [] && !Recent(reports[|reports| - 1], since)
    ensures AllRecentListed(reports, candidates, since)
  {
    hide Bucket, Recent;
    forall r | r in reports ensures !Recent(r, since) {
      WithinEnds(reports, r);
      if Recent(r, since) {
        RecentUpwards(reports, since, r, reports[|reports| - 1]);
      }
    }
  }

  /** An answer of the seek is recent, so the last report is. */
  lemma LastIsRecent(reports: seq<Report>, since: Time)
    requires Bucket(reports) && SeekStart(reports, since).StartAt?
    ensures reports != [] && Recent(reports[|reports| - 1], since)
  {
    hide Bucket, SeekStart;
    SeekIsSafe(reports, since);
    var r :| r in reports && Recent(r, since);
    WithinEnds(reports, r);
    RecentUpwards(reports, since, r, reports[|reports| - 1]);
  }

  /** Where the condition of NoRecentMissedIff fails, the candidates of the listing miss a recent report. */
  lemma Misses(reports: seq<Report>, since: Time, limit: int)
    requires Bucket(reports) && reports != [] && Recent(reports[|reports| - 1], since)
    requires var s := SeekStart(reports, since);
             || (s.StartAt? && !LeastRecent(reports, since, s.number))
             || 0 < limit < |reports| - StartIndex(reports, s)
    ensures !MissesNone(reports, since, limit)
  {
    hide Bucket, SeekStart, LeastRecent, From, RecentReached, AllRecentListed, SortedNewestFirst, Kept, Limited,
         CandidatesFrom;
    var i := StartIndex(reports, SeekStart(reports, since));
    StartWithin(reports, since);
    var listed := Limited(reports[i..], limit);
    assert Bucket(listed) by {
      ListedSlice(reports, StartFor(SeekStart(reports, since)), limit);
    }
    var candidates := SortedNewestFirst(Kept(listed, AddDays(since, -1)));
    CandidatesOfListing(listed, since);
    RecentAreReached(reports, since, limit, i, candidates);
    NoRecentMissedIff(reports, since, limit, candidates);
  }

  lemma StartWithin(reports: seq<Report>, since: Time)
    requires Bucket(reports)
    ensures StartIndex(reports, SeekStart(reports, since)) <= |reports|
  {
    hide Bucket, SeekStart, StartIndex, SafeStart;
    SeekIsSafe(reports, since);
    StartIndexIs(reports, SeekStart(reports, since), since);
  }

  /** With every report recent the seek answers the first, and the listing starts there. */
  lemma AllDatedRecent(numbers: seq<nat>)
    requires Ascending(numbers) && numbers != []
    ensures var reports := DatedFrom(numbers, 0);
            && Bucket(reports) && Stamped(reports) && Recent(reports[|reports| - 1], 2)
            && StartIndex(reports, SeekStart(reports, 2)) == 0
  {
    hide Bucket, Stamped, SeekStart, StartIndex, SafeStart;
    var reports := DatedFrom(numbers, 0);
    DatedIsBucket(numbers, 0);
    SeekIs(reports, 2);
    SeekIsSafe(reports, 2);
    StartIndexIs(reports, SeekStart(reports, 2), 2);
    assert SeekStart(reports, 2) == StartAt(reports[0].number);
    NumbersOrdered(reports, 0, StartIndex(reports, SeekStart(reports, 2)));
  }

  lemma NotBeforeStart(reports: seq<Report>, since: Time, i: nat, k: nat)
    requires Bucket(reports) && k < |reports| && Recent(reports[k], since)
    requires i == 0 || (i < |reports| && LeastRecent(reports, since, reports[i].number))
    ensures i <= k
  {
    assert reports[k] in reports;
    if k < i {
      NumbersOrdered(reports, k, i);
    }
  }

  lemma ListedSlice(reports: seq<Report>, start: string, limit: int)
    requires Bucket(reports)
    ensures var listed := Limited(reports[From(reports, start)..], limit);
            Bucket(listed) && forall r :: r in listed ==> r in reports
  {
    hide Bucket, From;
    var i := From(reports, start);
    SliceOfBucket(reports, i, |reports|);
    assert reports[i..] == reports[i..|reports|];
    if 0 < limit < |reports| - i {
      SliceOfBucket(reports, i, i + limit);
      assert reports[i..][..limit] == reports[i..i + limit];
    }
  }

  lemma SliceOfBucket(reports: seq<Report>, i: nat, j: nat)
    requires Bucket(reports) && i <= j <= |reports|
    ensures Bucket(reports[i..j]) && forall r :: r in reports[i..j] ==> r in reports
  {
    hide Padded, GoodSuffix;
  }

  lemma FromNothing(reports: seq<Report>)
    ensures From(reports, "") == 0
  {}
}
