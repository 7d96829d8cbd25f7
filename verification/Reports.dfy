/** Report delivery: the completeness gate, the choice of pending destinations, and the record of what was sent. */
module Reports {
  import opened Calendar

  datatype Period = DailyReport | WeeklyReport | MonthlyReport | OtherPeriod(name: string)

  datatype Report = Report(period: Period, from: Time, to: Time)

  datatype DeliveryKey = DeliveryKey(report: Report, destination: string)

  /** What became of one destination: Sent and Unrecorded reports have gone out. */
  datatype Fate = Sent | Unrecorded | AlreadyDelivered | CheckFailed | SendFailed | BuildFailed

  datatype DeliveryResult = DeliveryResult(destination: string, fate: Fate)

  /** A whole call: no sender, the gate refused or could not be read, or one result per destination. */
  datatype Delivery = NoSender | GateFailed | Incomplete | Results(results: seq<DeliveryResult>)

  function Destinations(results: seq<DeliveryResult>): seq<string> {
    if results == [] then [] else Destinations(results[..|results| - 1]) + [results[|results| - 1].destination]
  }

  /** What is on record, and the history behind it: the reports that went out, and the records that failed. */
  datatype Log = Log(sends: multiset<DeliveryKey>, delivered: set<DeliveryKey>, unrecorded: multiset<DeliveryKey>)

  function AfterOne(log: Log, report: Report, r: DeliveryResult): Log {
    var key := DeliveryKey(report, r.destination);
    match r.fate
    case Sent => log.(sends := log.sends + multiset{key}, delivered := log.delivered + {key})
    case Unrecorded => log.(sends := log.sends + multiset{key}, unrecorded := log.unrecorded + multiset{key})
    case _ => log
  }

  function After(log: Log, report: Report, results: seq<DeliveryResult>): Log {
    if results == [] then log
    else AfterOne(After(log, report, results[..|results| - 1]), report, results[|results| - 1])
  }

  /** The destinations that were served and put on record. */
  function RecordedTo(results: seq<DeliveryResult>): seq<string> {
    if results == [] then []
    else
      var last := results[|results| - 1];
      RecordedTo(results[..|results| - 1]) + if last.fate == Sent then [last.destination] else []
  }

  ghost predicate Distinct(destinations: seq<string>) {
    forall i, j :: 0 <= i < j < |destinations| ==> destinations[i] != destinations[j]
  }

  /** No destination twice, and none that has the report. */
  ghost predicate Unsent(report: Report, destinations: seq<string>, delivered: set<DeliveryKey>) {
    Distinct(destinations) && forall d :: d in destinations ==> DeliveryKey(report, d) !in delivered
  }

  /** A report called sent or delivered is on record. */
  ghost predicate Claimed(report: Report, results: seq<DeliveryResult>, delivered: set<DeliveryKey>) {
    forall r :: r in results && r.fate in {Sent, AlreadyDelivered} ==> DeliveryKey(report, r.destination) in delivered
  }

  /** The destinations are divided between those with a result and those pending. */
  ghost predicate Shared(destinations: seq<string>, results: seq<DeliveryResult>, pending: seq<string>) {
    multiset(destinations) == multiset(Destinations(results)) + multiset(pending)
  }

  /** How often a report went out beyond its record and the failures to record it. */
  function Excess(log: Log, key: DeliveryKey): int {
    log.sends[key] as int - (if key in log.delivered then 1 else 0) - log.unrecorded[key] as int
  }

  /** A report goes out once, and once more for every failure to record it. */
  ghost predicate OncePerRecord(log: Log) { forall key :: Excess(log, key) <= 0 }

  /** Nothing is on record, and no record failed, without a report that went out. */
  ghost predicate Accounted(log: Log) { forall key :: Excess(log, key) >= 0 }

  lemma ExcessOne(log: Log, report: Report, r: DeliveryResult, key: DeliveryKey)
    ensures var again := r.fate == Sent && key == DeliveryKey(report, r.destination) && key in log.delivered;
            Excess(AfterOne(log, report, r), key) == Excess(log, key) + if again then 1 else 0
  {}

  /** One attempt: the bound survives, whatever the log, exactly when the destination is not served and recorded once
      more; a bound that was broken stays so. */
  lemma OnceMoreIff(log: Log, report: Report, r: DeliveryResult)
    requires Accounted(log)
    ensures Accounted(AfterOne(log, report, r))
    ensures OncePerRecord(AfterOne(log, report, r)) <==>
      OncePerRecord(log) && (r.fate == Sent ==> DeliveryKey(report, r.destination) !in log.delivered)
  {
    hide AfterOne, Excess;
    var next := AfterOne(log, report, r);
    forall key ensures 0 <= Excess(log, key) <= Excess(next, key) {
      ExcessOne(log, report, r, key);
    }
    ExcessOne(log, report, r, DeliveryKey(report, r.destination));
    if OncePerRecord(log) && (r.fate == Sent ==> DeliveryKey(report, r.destination) !in log.delivered) {
      forall key ensures Excess(next, key) <= 0 {
        ExcessOne(log, report, r, key);
      }
    }
  }

  /** Any history, any results: the bound holds afterwards exactly when it held before and the destinations served and
      recorded now are distinct and were not on record. */
  lemma {:induction false} BoundIff(log: Log, report: Report, results: seq<DeliveryResult>)
    requires Accounted(log)
    ensures Accounted(After(log, report, results))
    ensures OncePerRecord(After(log, report, results)) <==>
      OncePerRecord(log) && Unsent(report, RecordedTo(results), log.delivered)
    ensures forall d :: DeliveryKey(report, d) in After(log, report, results).delivered <==>
      DeliveryKey(report, d) in log.delivered || d in RecordedTo(results)
  {
    if results != [] {
      hide Accounted, OncePerRecord, Unsent;
      var init, last := results[..|results| - 1], results[|results| - 1];
      BoundIff(log, report, init);
      OnceMoreIff(After(log, report, init), report, last);
      UnsentSnocIff(report, RecordedTo(init), last.destination, log.delivered);
      assert RecordedTo(init) + [] == RecordedTo(init);
    }
  }

  /** Forced again, or named twice in one call: the second send breaks the bound. */
  lemma SentTwice(report: Report, destination: string)
    ensures var sent := DeliveryResult(destination, Sent);
            var start := Log(multiset{}, {}, multiset{});
            OncePerRecord(After(start, report, [sent])) && !OncePerRecord(After(start, report, [sent, sent]))
  {
    var sent, start := DeliveryResult(destination, Sent), Log(multiset{}, {}, multiset{});
    hide Unsent;
    BoundIff(start, report, [sent]);
    BoundIff(start, report, [sent, sent]);
    ResultsSnoc([], sent);
    ResultsSnoc([sent], sent);
    assert [] + [sent] == [sent] && [sent] + [sent] == [sent, sent];
    UnsentSnocIff(report, [], destination, {});
    UnsentSnocIff(report, [destination], destination, {});
    assert Unsent(report, [], {}) by { NothingUnsent(report, {}); }
    assert RecordedTo([sent, sent]) == [destination] + [destination];
  }

  lemma UnsentSnocIff(report: Report, destinations: seq<string>, d: string, delivered: set<DeliveryKey>)
    ensures Unsent(report, destinations + [d], delivered) <==>
      Unsent(report, destinations, delivered) && d !in destinations && DeliveryKey(report, d) !in delivered
  {
    var all := destinations + [d];
    if Unsent(report, all, delivered) {
      assert all[|destinations|] == d && d in all;
      forall i, j | 0 <= i < j < |destinations| ensures destinations[i] != destinations[j] {
        assert all[i] != all[j];
      }
      forall i | 0 <= i < |destinations| ensures destinations[i] != d {
        assert all[i] != all[|destinations|];
      }
      assert forall x :: x in destinations ==> x in all;
    }
  }

  lemma NothingUnsent(report: Report, delivered: set<DeliveryKey>)
    ensures Unsent(report, [], delivered)
  {}

  lemma NoResults(report: Report, delivered: set<DeliveryKey>)
    ensures Destinations([]) == [] && NothingOut([])
    ensures Claimed(report, [], delivered) && Shared([], [], []) && Chosen(report, [], [], delivered)
  {}

  lemma SharedSnoc(destinations: seq<string>, results: seq<DeliveryResult>, pending: seq<string>, d: string)
    requires Shared(destinations, results, pending)
    ensures Shared(destinations + [d], results, pending + [d])
    ensures forall fate :: Shared(destinations + [d], results + [DeliveryResult(d, fate)], pending)
  {
    forall fate ensures Shared(destinations + [d], results + [DeliveryResult(d, fate)], pending) {
      ResultsSnoc(results, DeliveryResult(d, fate));
    }
  }

  lemma ClaimedSnoc(report: Report, results: seq<DeliveryResult>, r: DeliveryResult, before: set<DeliveryKey>,
                    after: set<DeliveryKey>)
    requires Claimed(report, results, before) && before <= after
    requires r.fate in {Sent, AlreadyDelivered} ==> DeliveryKey(report, r.destination) in after
    ensures Claimed(report, results + [r], after)
  {}

  lemma ClaimedAppend(report: Report, a: seq<DeliveryResult>, b: seq<DeliveryResult>, before: set<DeliveryKey>,
                      after: set<DeliveryKey>)
    requires Claimed(report, a, before) && before <= after && Claimed(report, b, after)
    ensures Claimed(report, a + b, after)
  {}

  lemma ResultsSnoc(results: seq<DeliveryResult>, r: DeliveryResult)
    ensures Destinations(results + [r]) == Destinations(results) + [r.destination]
    ensures RecordedTo(results + [r]) == RecordedTo(results) + if r.fate == Sent then [r.destination] else []
    ensures forall log, report :: After(log, report, results + [r]) == AfterOne(After(log, report, results), report, r)
  {
    assert (results + [r])[..|results|] == results;
  }

  lemma {:induction false} ResultsAppend(a: seq<DeliveryResult>, b: seq<DeliveryResult>)
    ensures Destinations(a + b) == Destinations(a) + Destinations(b)
    ensures RecordedTo(a + b) == RecordedTo(a) + RecordedTo(b)
    ensures forall log, report :: After(log, report, a + b) == After(After(log, report, a), report, b)
  {
    if b == [] {
      assert a + b == a;
    } else {
      hide AfterOne;
      assert (a + b)[..|a + b| - 1] == a + b[..|b| - 1];
      ResultsAppend(a, b[..|b| - 1]);
    }
  }

  /** reportDestinations: a sender without named destinations has the default one. */
  function SenderDestinations(named: seq<string>): (destinations: seq<string>)
    ensures destinations != []
  {
    if named == [] then ["default"] else named
  }

  /** The destinations a call sends to if no check fails: all when forced, else those without the report. */
  function Pending(report: Report, destinations: seq<string>, delivered: set<DeliveryKey>, force: bool): seq<string> {
    if destinations == [] then []
    else
      var last := destinations[|destinations| - 1];
      Pending(report, destinations[..|destinations| - 1], delivered, force) +
          if force || DeliveryKey(report, last) !in delivered then [last] else []
  }

  /** No check, build, send or record failed. */
  ghost predicate NoFailure(results: seq<DeliveryResult>) {
    forall r :: r in results ==> r.fate in {Sent, AlreadyDelivered}
  }

  /** These results sent nothing. */
  ghost predicate NothingOut(results: seq<DeliveryResult>) {
    RecordedTo(results) == [] && forall log, report :: After(log, report, results) == log
  }

  /** Chosen destinations are among those without the report. */
  ghost predicate Chosen(report: Report, without: seq<string>, pending: seq<string>, delivered: set<DeliveryKey>) {
    Unsent(report, without, delivered) ==>
      Unsent(report, pending, delivered) && forall d :: d in pending ==> d in without
  }

  lemma ChosenStep(report: Report, without: seq<string>, pending: seq<string>, d: string, delivered: set<DeliveryKey>)
    requires Chosen(report, without, pending, delivered)
    ensures Chosen(report, without + [d], pending, delivered)
    ensures Chosen(report, without + [d], pending + [d], delivered)
  {
    hide Unsent;
    UnsentSnocIff(report, without, d, delivered);
    UnsentSnocIff(report, pending, d, delivered);
  }

  /** Some of the destinations of a call are served and recorded, or all when nothing fails. */
  lemma {:induction false} RecordedAmong(report: Report, results: seq<DeliveryResult>, delivered: set<DeliveryKey>)
    ensures Chosen(report, Destinations(results), RecordedTo(results), delivered)
    ensures (forall r :: r in results ==> r.fate == Sent) ==> RecordedTo(results) == Destinations(results)
  {
    if results != [] {
      hide Chosen;
      var init, last := results[..|results| - 1], results[|results| - 1];
      RecordedAmong(report, init, delivered);
      ChosenStep(report, Destinations(init), RecordedTo(init), last.destination, delivered);
      assert results == init + [last] && last in results;
      assert RecordedTo(init) + [] == RecordedTo(init);
      assert forall r :: r in init ==> r in results;
    }
  }

  /** A forced call sends to all its destinations, so they must be distinct and without the report; of an unforced one
      the bound asks only that no destination without the report is named twice. */
  lemma {:induction false} PendingIs(report: Report, destinations: seq<string>, delivered: set<DeliveryKey>)
    ensures Pending(report, destinations, delivered, true) == destinations
    ensures var pending := Pending(report, destinations, delivered, false);
            && (Unsent(report, pending, delivered) <==> Distinct(pending))
            && (forall d :: d in pending <==> d in destinations && DeliveryKey(report, d) !in delivered)
            && (Distinct(destinations) ==> Distinct(pending))
  {
    if destinations != [] {
      var init, last := destinations[..|destinations| - 1], destinations[|destinations| - 1];
      PendingIs(report, init, delivered);
      assert destinations == init + [last];
      UnsentSnocIff(report, init, last, {});
      UnsentSnocIff(report, Pending(report, init, delivered, false), last, {});
    }
  }

  /** rangeHasDailyData: every UTC day of the range has rows. */
  method RangeHasDailyData(populated: set<int>, from: Time, to: Time) returns (ok: bool, complete: bool)
    ensures ok ==> (complete <==> forall d :: DayOf(from) <= d < DayOf(to) ==> d in populated)
  {
    var dayStart, end := DayStart(from), DayStart(to);
    while dayStart < end
      invariant dayStart == DayOf(dayStart) * DAY && DayOf(from) <= DayOf(dayStart)
      invariant DayOf(from) <= DayOf(to) ==> DayOf(dayStart) <= DayOf(to)
      invariant forall d :: DayOf(from) <= d < DayOf(dayStart) ==> d in populated
      decreases end - dayStart
    {
      var readable: bool := *;
      if !readable { return false, false; }
      if DayOf(dayStart) !in populated { return true, false; }
      dayStart := AddDays(dayStart, 1);
    }
    return true, true;
  }

  class Deliveries {
    var delivered: set<DeliveryKey>
    /** History: the reports that went out, and the records that failed. */
    ghost var sends: multiset<DeliveryKey>
    ghost var unrecorded: multiset<DeliveryKey>

    constructor ()
      ensures History() == Log(multiset{}, {}, multiset{}) && Valid() && AtMostOnce()
    {
      delivered, sends, unrecorded := {}, multiset{}, multiset{};
    }

    ghost function History(): Log
      reads this
    {
      Log(sends, delivered, unrecorded)
    }

    ghost predicate Valid()
      reads this
    {
      Accounted(History())
    }

    /** A report goes out once, and once more for every failure to record it. */
    ghost predicate AtMostOnce()
      reads this
    {
      OncePerRecord(History())
    }

    method SendTo(report: Report, destination: string) returns (result: DeliveryResult)
      modifies this
      ensures result.destination == destination && result.fate in {Sent, Unrecorded, SendFailed}
      ensures History() == AfterOne(old(History()), report, result)
    {
      var sent: bool := *;
      if !sent { return DeliveryResult(destination, SendFailed); }
      sends := sends + multiset{DeliveryKey(report, destination)};
      var recorded: bool := *;
      if !recorded {
        unrecorded := unrecorded + multiset{DeliveryKey(report, destination)};
        return DeliveryResult(destination, Unrecorded);
      }
      delivered := delivered + {DeliveryKey(report, destination)};
      return DeliveryResult(destination, Sent);
    }

    method DeliverReportToDestinations(report: Report, destinations: seq<string>) returns (results: seq<DeliveryResult>)
      requires Valid()
      modifies this
      ensures Valid() && Destinations(results) == destinations
      ensures forall r :: r in results ==> r.fate in {Sent, Unrecorded, SendFailed}
      ensures History() == After(old(History()), report, results)
      ensures AtMostOnce() <==> old(AtMostOnce()) && Unsent(report, RecordedTo(results), old(delivered))
      ensures old(AtMostOnce()) && Unsent(report, destinations, old(delivered)) ==> AtMostOnce()
      ensures Claimed(report, results, delivered) && old(delivered) <= delivered
    {
      hide Destinations, RecordedTo, After, Unsent, Claimed, OncePerRecord, Accounted;
      results := [];
      NoResults(report, delivered);
      for i := 0 to |destinations|
        invariant Destinations(results) == destinations[..i]
        invariant forall r :: r in results ==> r.fate in {Sent, Unrecorded, SendFailed}
        invariant History() == After(old(History()), report, results)
        invariant Claimed(report, results, delivered) && old(delivered) <= delivered
      {
        ghost var before := delivered;
        var result := SendTo(report, destinations[i]);
        ResultsSnoc(results, result);
        ClaimedSnoc(report, results, result, before, delivered);
        assert destinations[..i + 1] == destinations[..i] + [destinations[i]];
        results := results + [result];
      }
      BoundIff(old(History()), report, results);
      RecordedAmong(report, results, old(delivered));
    }

    /** Chooses the destinations that still need the report; the others get their result at once. */
    method ChoosePending(report: Report, destinations: seq<string>, force: bool)
      returns (results: seq<DeliveryResult>, pending: seq<string>)
      ensures Shared(destinations, results, pending) && NothingOut(results)
      ensures Claimed(report, results, delivered)
      ensures forall r :: r in results ==> r.fate in {AlreadyDelivered, CheckFailed}
      ensures Chosen(report, Pending(report, destinations, delivered, force), pending, delivered)
      ensures NoFailure(results) ==> pending == Pending(report, destinations, delivered, force)
      ensures force ==> pending == destinations && results == []
    {
      hide Destinations, RecordedTo, After, Claimed, Shared, Chosen;
      results, pending := [], [];
      NoResults(report, delivered);
      for i := 0 to |destinations|
        invariant Shared(destinations[..i], results, pending) && NothingOut(results)
        invariant Claimed(report, results, delivered)
        invariant forall r :: r in results ==> r.fate in {AlreadyDelivered, CheckFailed}
        invariant Chosen(report, Pending(report, destinations[..i], delivered, force), pending, delivered)
        invariant NoFailure(results) ==> pending == Pending(report, destinations[..i], delivered, force)
        invariant force ==> pending == destinations[..i] && results == []
      {
        ghost var without := Pending(report, destinations[..i], delivered, force);
        assert destinations[..i + 1][..i] == destinations[..i];
        assert destinations[..i + 1] == destinations[..i] + [destinations[i]] && without + [] == without;
        SharedSnoc(destinations[..i], results, pending, destinations[i]);
        ChosenStep(report, without, pending, destinations[i], delivered);
        var readable: bool := *;
        if !force && (!readable || DeliveryKey(report, destinations[i]) in delivered) {
          var result := DeliveryResult(destinations[i], if readable then AlreadyDelivered else CheckFailed);
          ResultsSnoc(results, result);
          ClaimedSnoc(report, results, result, delivered, delivered);
          assert NoFailure(results + [result]) ==> NoFailure(results) && readable by {
            assert result in results + [result];
          }
          results := results + [result];
          continue;
        }
        pending := pending + [destinations[i]];
      }
      assert destinations[..|destinations|] == destinations;
    }

    /** DeliverReport, and the part of DeliverScheduledReport after the gate; a scheduled report is built only
        when some destination needs it, and may fail to be. When nothing fails, the bound survives exactly if the
        destinations sent to are distinct and without the report; if they are, it survives every failure. */
    method DeliverReport(report: Report, named: seq<string>, force: bool, scheduled: bool)
      returns (results: seq<DeliveryResult>)
      requires Valid()
      modifies this
      ensures Valid() && multiset(Destinations(results)) == multiset(SenderDestinations(named))
      ensures multiset(Destinations(results)) == multiset(if named == [] then ["default"] else named)
      ensures History() == After(old(History()), report, results)
      ensures AtMostOnce() <==> old(AtMostOnce()) && Unsent(report, RecordedTo(results), old(delivered))
      ensures var pending := Pending(report, SenderDestinations(named), old(delivered), force);
              && (old(AtMostOnce()) && Unsent(report, pending, old(delivered)) ==> AtMostOnce())
              && (NoFailure(results) ==>
                    (AtMostOnce() <==> old(AtMostOnce()) && Unsent(report, pending, old(delivered))))
      ensures old(AtMostOnce()) && !force && Distinct(SenderDestinations(named)) ==> AtMostOnce()
      ensures !scheduled ==> forall r :: r in results ==> r.fate != BuildFailed
      ensures force ==> forall r :: r in results ==> r.fate !in {AlreadyDelivered, CheckFailed}
      ensures Claimed(report, results, delivered) && old(delivered) <= delivered
    {
      hide Destinations, RecordedTo, After, Unsent, Claimed, OncePerRecord, Accounted, Pending, Distinct;
      PendingIs(report, SenderDestinations(named), delivered);
      var early, pending := ChoosePending(report, SenderDestinations(named), force);
      var built: bool := *;
      var later := [];
      NoResults(report, delivered);
      if scheduled && |pending| == 0 {
      } else if scheduled && !built {
        later := BuildFailures(report, pending);
      } else {
        later := DeliverReportToDestinations(report, pending);
      }
      ResultsAppend(early, later);
      ClaimedAppend(report, early, later, old(delivered), delivered);
      results := early + later;
      BoundIff(old(History()), report, results);
      RecordedAmong(report, later, old(delivered));
      assert RecordedTo(results) == RecordedTo(later);
    }

    /** DeliverScheduledReport: nothing goes out when there is no sender or the gate does not pass. */
    method DeliverScheduledReport(report: Report, hasSender: bool, named: seq<string>, force: bool,
                                  requireComplete: bool, populated: set<int>)
      returns (delivery: Delivery)
      requires Valid()
      modifies this
      ensures Valid() && (delivery.NoSender? <==> !hasSender)
      ensures !delivery.Results? ==> History() == old(History())
      ensures delivery.Results? ==>
        && multiset(Destinations(delivery.results)) == multiset(if named == [] then ["default"] else named)
        && History() == After(old(History()), report, delivery.results)
        && Claimed(report, delivery.results, delivered)
      ensures delivery.Results? && requireComplete && report.period in {DailyReport, WeeklyReport} ==>
        forall d :: DayOf(report.from) <= d < DayOf(report.to) ==> d in populated
      ensures delivery.Incomplete? ==>
        requireComplete && report.period in {DailyReport, WeeklyReport}
            && exists d :: DayOf(report.from) <= d < DayOf(report.to) && d !in populated
      ensures var pending := Pending(report, SenderDestinations(named), old(delivered), force);
              && (old(AtMostOnce()) && Unsent(report, pending, old(delivered)) ==> AtMostOnce())
              && (delivery.Results? && NoFailure(delivery.results) ==>
                    (AtMostOnce() <==> old(AtMostOnce()) && Unsent(report, pending, old(delivered))))
      ensures old(AtMostOnce()) && !force && Distinct(SenderDestinations(named)) ==> AtMostOnce()
    {
      if !hasSender { return NoSender; }
      if requireComplete && (report.period == DailyReport || report.period == WeeklyReport) {
        var ok, complete := RangeHasDailyData(populated, report.from, report.to);
        if !ok { return GateFailed; }
        if !complete { return Incomplete; }
      }
      var results := DeliverReport(report, named, force, true);
      return Results(results);
    }
  }

  method BuildFailures(report: Report, pending: seq<string>) returns (results: seq<DeliveryResult>)
    ensures Destinations(results) == pending && NothingOut(results)
    ensures (forall r :: r in results ==> r.fate == BuildFailed)
        && forall delivered :: Claimed(report, results, delivered)
  {
    results := [];
    for i := 0 to |pending|
      invariant Destinations(results) == pending[..i] && NothingOut(results)
      invariant forall r :: r in results ==> r.fate == BuildFailed
    {
      assert pending[..i + 1] == pending[..i] + [pending[i]];
      ResultsSnoc(results, DeliveryResult(pending[i], BuildFailed));
      results := results + [DeliveryResult(pending[i], BuildFailed)];
    }
  }
}
