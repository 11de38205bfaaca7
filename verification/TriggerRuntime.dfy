/** The runtime object: submission with retries, handling, dead-trigger retry and range replay. */
module TriggerRuntimes {
  import opened Base
  import opened Backoff
  import opened Registry
  import opened Runtime
  import opened HandleReports
  import opened EventStores

  class TriggerRuntime {
    const ctx: Context
    /** The broker and the dead-trigger queue this runtime works against. */
    var world: World

    constructor (registry: TriggerRegistry, env: Environment, options: RuntimeOptions, world: World)
      ensures ctx == Context(env, options, registry.registrations) && this.world == world
    {
      ctx := Context(env, options, registry.registrations);
      this.world := world;
    }

    /** One submission; `waited` is the time spent between attempts. `IsSubmission` says what calls it makes, and
        `Backoff.WaitIsSumOfDelays` what the wait is. */
    method EnqueueWithRetries(job: WorklaneJob, key: string) returns (result: Result<nat, string>, waited: nat)
      modifies this
      ensures (world, result) == Enqueue(ctx, job, key, old(world))
      ensures !ctx.env.validLane(job.lane) ==> world == old(world) && result.Err?
      ensures ctx.env.validLane(job.lane) ==>
        IsSubmission(ctx, world.calls, |old(world.calls)|, |world.calls|, NewJob(job, key), result.Ok?)
      ensures result.Ok? ==> IsLiveJob(world.jobs, result.value, key)
      ensures |world.calls| >= |old(world.calls)|
      ensures waited == TotalDelay(|world.calls| - |old(world.calls)|, ctx.options.submissionBackoff)
    {
      EnqueueIsExact(ctx, job, key, world);
      hide Call, IsSubmission, IsLiveJob, Grows;
      waited := 0;
      if !ctx.env.validLane(job.lane) {
        return Err("invalid lane"), 0;
      }
      var attempts := ctx.Attempts();
      var newJob := NewJob(job, key);
      var attempt := 0;
      result := Err("broker");
      while attempt < attempts
        invariant 0 <= attempt <= attempts && result.Err?
        invariant |world.calls| == |old(world.calls)| + attempt
        invariant attempt == attempts ==> (world, result) == Submit(ctx.env, newJob, attempts, old(world))
        invariant attempt < attempts ==>
          Submit(ctx.env, newJob, attempts, old(world)) == Submit(ctx.env, newJob, attempts - attempt, world)
        invariant waited == TotalDelay(attempt, ctx.options.submissionBackoff)
      {
        if attempt > 0 {
          var delay := Delay(attempt, ctx.options.submissionBackoff);
          if delay != 0 {
            waited := waited + delay;
          }
        }
        CallFacts(ctx.env, newJob, world);
        var (after, answer) := Call(ctx.env, newJob, world);
        world := after;
        result := answer;
        attempt := attempt + 1;
        if answer.Ok? {
          return;
        }
      }
    }

    method RecordDeadTrigger(e: EventEnvelope, name: string, error: string)
        returns (result: Result<DeadTriggerRecord, string>)
      modifies this
      ensures (world, result) == Record(ctx.env, DeadTriggerRecord(e, name, error), old(world))
    {
      var (after, written) := Record(ctx.env, DeadTriggerRecord(e, name, error), world);
      world := after;
      return written;
    }

    /** Route one matched trigger: bind and submit, or dead-letter. */
    method Route(r: RegisteredTrigger, e: EventEnvelope) returns (result: Result<TriggerOutcome, string>)
      modifies this
      ensures (world, result) == HandleOne(ctx, r, e, old(world))
    {
      var submitted: Result<nat, string>;
      var waited;
      match r.binding.Bind(e) {
        case Ok(job) =>
          submitted, waited := EnqueueWithRetries(job, SubmissionKey(Identity(e), r.name));
        case Err(rejected) =>
          submitted := Err(rejected);
      }
      match submitted {
        case Ok(id) =>
          return Ok(Submitted(id));
        case Err(error) =>
          var recorded := RecordDeadTrigger(e, r.name, error);
          return match recorded case Ok(record) => Ok(Failed(record)) case Err(storage) => Err(storage);
      }
    }

    method HandleEvent(e: EventEnvelope) returns (result: Result<HandleReport, string>)
      modifies this
      ensures (world, result) == Handle(ctx, e, old(world))
      ensures result.Ok? ==> ReportIs(ctx, e, world.jobs, result.value)
    {
      HandledReportIs(ctx, e, world);
      hide ReportIs;
      var submitted: seq<nat>, failed: seq<DeadTriggerRecord> := [], [];
      var matching := ctx.Matching(e);
      var i := 0;
      assert matching[0..] == matching;
      while i < |matching|
        invariant 0 <= i <= |matching|
        invariant HandleFrom(ctx, matching[i..], e, HandleReport(submitted, failed), world)
               == Handle(ctx, e, old(world))
      {
        assert matching[i..][1..] == matching[i + 1..];
        var routed := Route(matching[i], e);
        match routed {
          case Err(error) => return Err(error);
          case Ok(Submitted(id)) => submitted := submitted + [id];
          case Ok(Failed(record)) => failed := failed + [record];
        }
        i := i + 1;
      }
      return Ok(HandleReport(submitted, failed));
    }

    // ---------------------------------------------------------------- range replay

    method ReplayRange(store: FileEventStore, start: int, end: int, filter: ReplayFilter)
        returns (result: Result<seq<(EventId, HandleReport)>, string>)
      modifies this
      ensures
        var preview := Preview(store.View().events, start, end, filter);
        var (after, reports) := HandleEach(ctx, preview, old(world));
        && world == after
        && (result.Ok? <==> |reports| == |preview|)
        && (result.Ok? ==>
              && |result.value| == |preview|
              && forall i :: 0 <= i < |preview| ==>
                   result.value[i] == (preview[i].id, reports[i]) && ReportIs(ctx, preview[i], world.jobs, reports[i]))
    {
      var events := Preview(store.View().events, start, end, filter);
      PassReportsAre(ctx, events, world);
      hide ReportIs, HandleEach;
      var replayed: seq<(EventId, HandleReport)> := [];
      ghost var worlds, reports: seq<HandleReport> := [world], [];
      for i := 0 to |events|
        invariant |reports| == |replayed| == i && IsPass(ctx, events, worlds, reports)
        invariant worlds[0] == old(world) && worlds[i] == world
        invariant forall k :: 0 <= k < i ==> replayed[k] == (events[k].id, reports[k])
      {
        var handled := HandleEvent(events[i]);
        if handled.Err? {
          PassIsHandleEach(ctx, events, worlds, reports, world);
          return Err(handled.error);
        }
        PassGoesOn(ctx, events, worlds, reports, world, handled.value);
        replayed := replayed + [(events[i].id, handled.value)];
        worlds, reports := worlds + [world], reports + [handled.value];
      }
      PassIsHandleEach(ctx, events, worlds, reports, world);
      return Ok(replayed);
    }

    // ---------------------------------------------------------------- dead-trigger retry

    /** One retry pass. Draining comes first: when the pass then stops on an error, the queue holds the renewed
        failures of the events handled so far and failures of the event it stopped at, and the drained records of
        the events after it are gone. `Runtime.SurvivesIff` says exactly which failures remain answered. */
    method RetryDeadTriggers(drainSucceeds: bool) returns (result: Result<RetryReport, string>)
      modifies this
      ensures !drainSucceeds ==> result.Err? && world == old(world)
      ensures drainSucceeds ==>
        var drained := old(world.dead);
        var (after, reports) := HandleEach(ctx, Retried(drained), old(world).(dead := []));
        && world == after
        && (result.Ok? <==> |reports| == |Retried(drained)|)
        && AllFailed(reports) <= world.dead
        && (forall d :: d in world.dead[|AllFailed(reports)|..] ==>
              |reports| < |Retried(drained)| && d.event == Retried(drained)[|reports|])
        && (result.Ok? ==>
              && world.dead == AllFailed(reports)
              && result.value.drained == |drained|
              && result.value.eventsRetried == |FirstSeen(drained)|
              && result.value.submitted == AllSubmitted(reports)
              && InReportOrder(result.value.submitted, reports)
              && ReportsAre(ctx, Retried(drained), world.jobs, reports)
              && Counted(Pairs(drained), Pairs(world.dead), result.value.stillFailed, result.value.recovered))
    {
      hide HandleEach, AllFailed, SumAgain, SumRecovered, AllSubmitted, Counted, InReportOrder, ReportsAre;
      if !drainSucceeds {
        return Err("storage");
      }
      var drained := world.dead;
      world := world.(dead := []);

      var order, events, failedTriggers := GroupByEvent(drained);
      FirstSeenCovers(drained);

      var retried, sets := EventsOf(order, events), SetsOf(order, failedTriggers);
      assert retried == Retried(drained) && sets == FailedSets(drained);
      ghost var reports;
      ghost var start := world;
      result, reports := RetryEach(retried, sets, |drained|);
      HandleEachGuarantees(ctx, retried, start);
      PassReportsAre(ctx, retried, start);
      SubmittedInOrder(reports);
      assert [] + AllFailed(reports) == AllFailed(reports);
      if result.Ok? {
        SumsCountPairs(drained, reports);
      }
    }

    /** Re-handle each event once, in order, summing the counts. */
    method RetryEach(events: seq<EventEnvelope>, sets: seq<set<string>>, drained: nat)
        returns (result: Result<RetryReport, string>, ghost reports: seq<HandleReport>)
      requires |events| == |sets|
      modifies this
      ensures (world, reports) == HandleEach(ctx, events, old(world))
      ensures result.Ok? <==> |reports| == |events|
      ensures result.Ok? ==> result.value.drained == drained && Tallies(result.value, events, sets, reports)
    {
      var report := RetryReport(drained, 0, 0, 0, []);
      reports := [];
      ghost var worlds := [world];
      for i := 0 to |events|
        invariant |reports| == i && IsPass(ctx, events, worlds, reports)
        invariant worlds[0] == old(world) && worlds[i] == world && report.drained == drained
        invariant Tallies(report, events, sets, reports)
      {
        var handled, stillFailed, recovered := RetryEvent(events[i], sets[i]);
        if handled.Err? {
          PassIsHandleEach(ctx, events, worlds, reports, world);
          return Err(handled.error), reports;
        }
        PassGoesOn(ctx, events, worlds, reports, world, handled.value);
        ghost var earlier := report;
        report := RetryReport(report.drained, report.eventsRetried + 1, report.recovered + recovered,
                              report.stillFailed + stillFailed, report.submitted + handled.value.submitted);
        TalliesSnoc(earlier, report, events, sets, reports, handled.value);
        worlds, reports := worlds + [world], reports + [handled.value];
      }
      PassIsHandleEach(ctx, events, worlds, reports, world);
      result := Ok(report);
    }

    /** Re-handle one event, and count its earlier failures that failed again and those that did not. */
    method RetryEvent(event: EventEnvelope, previouslyFailed: set<string>)
        returns (handled: Result<HandleReport, string>, stillFailed: nat, recovered: nat)
      modifies this
      ensures (world, handled) == Handle(ctx, event, old(world))
      ensures handled.Ok? ==>
        && stillFailed == |previouslyFailed * Names(handled.value.failed)|
        && recovered == |previouslyFailed - Names(handled.value.failed)|
        && world.dead == old(world.dead) + handled.value.failed
        && forall d :: d in handled.value.failed ==> d.event == event
    {
      HandleGuarantees(ctx, event, world);
      handled := HandleEvent(event);
      stillFailed, recovered := 0, 0;
      if handled.Ok? {
        stillFailed, recovered := CountAgain(previouslyFailed, Names(handled.value.failed));
      }
    }
  }

  /** Distinct ids in first-seen order, each id's event, each id's failed triggers. */
  ghost predicate Grouped(records: seq<DeadTriggerRecord>, order: seq<EventId>, events: map<EventId, EventEnvelope>,
      failedTriggers: map<EventId, set<string>>)
  {
    && order == FirstSeen(records)
    && events.Keys == failedTriggers.Keys == RecordIds(records)
    && forall id :: id in RecordIds(records) ==>
         events[id] == LastEvent(records, id) && failedTriggers[id] == FailedFor(records, id)
  }

  lemma GroupedSnoc(records: seq<DeadTriggerRecord>, order: seq<EventId>, events: map<EventId, EventEnvelope>,
      failedTriggers: map<EventId, set<string>>, d: DeadTriggerRecord)
    requires Grouped(records, order, events, failedTriggers)
    ensures
      var id := d.event.id;
      var names := if id in failedTriggers then failedTriggers[id] else {};
      Grouped(records + [d], if id in events then order else order + [id], events[id := d.event],
              failedTriggers[id := names + {d.triggerName}])
  {
    SnocRecord(records, d);
    FirstSeenCovers(records);
    hide FirstSeen, LastEvent, RecordIds, FailedFor;
  }

  lemma NothingGrouped()
    ensures Grouped([], [], map[], map[])
  {
  }

  method GroupByEvent(drained: seq<DeadTriggerRecord>)
      returns (order: seq<EventId>, events: map<EventId, EventEnvelope>, failedTriggers: map<EventId, set<string>>)
    ensures Grouped(drained, order, events, failedTriggers)
  {
    hide FirstSeen, LastEvent, RecordIds, FailedFor;
    order, events, failedTriggers := [], map[], map[];
    NothingGrouped();
    for i := 0 to |drained|
      invariant Grouped(drained[..i], order, events, failedTriggers)
    {
      var record := drained[i];
      var id := record.event.id;
      GroupedSnoc(drained[..i], order, events, failedTriggers, record);
      assert drained[..i + 1] == drained[..i] + [record];
      if id !in events {
        order := order + [id];
      }
      var names := if id in failedTriggers then failedTriggers[id] else {};
      events := events[id := record.event];
      failedTriggers := failedTriggers[id := names + {record.triggerName}];
    }
    assert drained[..|drained|] == drained;
  }

  // ------------------------------------------------------------------ replay windows

  datatype ReplayFilter = ReplayFilter(eventType: Option<string>, source: Option<Source>)
  {
    predicate Matches(e: EventEnvelope) {
      && (eventType.Some? ==> e.eventType == eventType.value)
      && (source.Some? ==> e.source == source.value)
    }
  }

  function InWindow(start: int, end: int, filter: ReplayFilter): EventEnvelope -> bool {
    (e: EventEnvelope) => start <= e.timestamp < end && filter.Matches(e)
  }

  /** The events a range replay would handle, in append order. */
  function Preview(events: seq<EventEnvelope>, start: int, end: int, filter: ReplayFilter): seq<EventEnvelope> {
    Filter(InWindow(start, end, filter), events)
  }

  /** A preview keeps append order and holds exactly the events at or after the start, before the end, of the type
      and the source asked for. */
  lemma PreviewIsExact(events: seq<EventEnvelope>, start: int, end: int, filter: ReplayFilter, e: EventEnvelope)
    ensures IsSubsequence(Preview(events, start, end, filter), events)
    ensures e in Preview(events, start, end, filter) <==>
      && e in events && start <= e.timestamp < end
      && (filter.eventType == None || filter.eventType == Some(e.eventType))
      && (filter.source == None || filter.source == Some(e.source))
  {
    FilterIsSubsequence(InWindow(start, end, filter), events);
    FilterMember(InWindow(start, end, filter), events, e);
  }

  /** Adjacent windows split the whole: they share no event, and together hold exactly its events. */
  lemma {:induction false} PreviewSplits(events: seq<EventEnvelope>, start: int, mid: int, end: int,
      filter: ReplayFilter)
    requires start <= mid <= end
    ensures multiset(Preview(events, start, end, filter))
         == multiset(Preview(events, start, mid, filter)) + multiset(Preview(events, mid, end, filter))
    ensures forall e :: !(e in Preview(events, start, mid, filter) && e in Preview(events, mid, end, filter))
  {
    if events != [] {
      PreviewSplits(events[1..], start, mid, end, filter);
    }
    forall e
      ensures !(e in Preview(events, start, mid, filter) && e in Preview(events, mid, end, filter))
    {
      FilterMember(InWindow(start, mid, filter), events, e);
      FilterMember(InWindow(mid, end, filter), events, e);
    }
  }

  // ------------------------------------------------------------------ what a retry pass counts

  datatype RetryReport = RetryReport(
    drained: nat,
    eventsRetried: nat,
    recovered: nat,
    stillFailed: nat,
    submitted: seq<nat>)

  function PairOf(d: DeadTriggerRecord): (EventId, string) {
    (d.event.id, d.triggerName)
  }

  function Pairs(records: seq<DeadTriggerRecord>): set<(EventId, string)> {
    set d | d in records :: PairOf(d)
  }

  function RecordIds(records: seq<DeadTriggerRecord>): set<EventId> {
    set d | d in records :: d.event.id
  }

  /** The distinct event ids, in the order first seen. */
  function FirstSeen(records: seq<DeadTriggerRecord>): seq<EventId> {
    if records == [] then []
    else
      var order := FirstSeen(records[..|records| - 1]);
      var id := records[|records| - 1].event.id;
      if id in order then order else order + [id]
  }

  /** The event the last record of an id carries. */
  function LastEvent(records: seq<DeadTriggerRecord>, id: EventId): EventEnvelope
    requires id in RecordIds(records)
  {
    var last := records[|records| - 1];
    if last.event.id == id then last.event
    else
      assert id in RecordIds(records[..|records| - 1]) by {
        var d :| d in records && d.event.id == id;
        assert d in records[..|records| - 1];
      }
      LastEvent(records[..|records| - 1], id)
  }

  function FailedFor(records: seq<DeadTriggerRecord>, id: EventId): set<string> {
    set d | d in records && d.event.id == id :: d.triggerName
  }

  /** Each distinct event once, in first-seen order. */
  function Retried(records: seq<DeadTriggerRecord>): seq<EventEnvelope> {
    FirstSeenCovers(records);
    var order := FirstSeen(records);
    seq(|order|, i requires 0 <= i < |order| => LastEvent(records, order[i]))
  }

  /** What the records said had failed, event by event. */
  function FailedSets(records: seq<DeadTriggerRecord>): seq<set<string>> {
    var order := FirstSeen(records);
    seq(|order|, i requires 0 <= i < |order| => FailedFor(records, order[i]))
  }

  function EventsOf(order: seq<EventId>, events: map<EventId, EventEnvelope>): seq<EventEnvelope>
    requires forall id :: id in order ==> id in events
  {
    seq(|order|, i requires 0 <= i < |order| => events[order[i]])
  }

  function SetsOf(order: seq<EventId>, failedTriggers: map<EventId, set<string>>): seq<set<string>>
    requires forall id :: id in order ==> id in failedTriggers
  {
    seq(|order|, i requires 0 <= i < |order| => failedTriggers[order[i]])
  }

  /** Each report's failures are of its event. */
  ghost predicate OwnFailures(events: seq<EventEnvelope>, reports: seq<HandleReport>) {
    |reports| <= |events| && forall k, d :: 0 <= k < |reports| && d in reports[k].failed ==> d.event == events[k]
  }

  function SumAgain(sets: seq<set<string>>, reports: seq<HandleReport>): nat
    requires |reports| <= |sets|
  {
    if reports == [] then 0
    else
      var n := |reports| - 1;
      SumAgain(sets, reports[..n]) + |sets[n] * Names(reports[n].failed)|
  }

  function SumRecovered(sets: seq<set<string>>, reports: seq<HandleReport>): nat
    requires |reports| <= |sets|
  {
    if reports == [] then 0
    else
      var n := |reports| - 1;
      SumRecovered(sets, reports[..n]) + |sets[n] - Names(reports[n].failed)|
  }

  function AllSubmitted(reports: seq<HandleReport>): seq<nat> {
    if reports == [] then []
    else
      var n := |reports| - 1;
      AllSubmitted(reports[..n]) + reports[n].submitted
  }

  /** How many ids the first `n` reports have. */
  function IdsBefore(reports: seq<HandleReport>, n: nat): nat
    requires n <= |reports|
  {
    if n == 0 then 0 else IdsBefore(reports, n - 1) + |reports[n - 1].submitted|
  }

  /** The ids are those of the reports, one report after the other. */
  ghost predicate InReportOrder(submitted: seq<nat>, reports: seq<HandleReport>) {
    && |submitted| == IdsBefore(reports, |reports|)
    && forall i: nat, j: nat :: i < |reports| && j < |reports[i].submitted| ==> IsIdAt(submitted, reports, i, j)
  }

  /** The j-th id of the i-th report, among all. */
  ghost predicate IsIdAt(submitted: seq<nat>, reports: seq<HandleReport>, i: nat, j: nat)
    requires i < |reports| && j < |reports[i].submitted|
  {
    var at := IdsBefore(reports, i) + j;
    at < |submitted| && submitted[at] == reports[i].submitted[j]
  }

  lemma {:induction false} IdsBeforeOfPrefix(reports: seq<HandleReport>, k: nat, n: nat)
    requires n <= k <= |reports|
    ensures IdsBefore(reports[..k], n) == IdsBefore(reports, n)
  {
    if n > 0 { IdsBeforeOfPrefix(reports, k, n - 1); }
  }

  lemma {:induction false} SubmittedInOrder(reports: seq<HandleReport>)
    ensures InReportOrder(AllSubmitted(reports), reports)
  {
    if reports != [] {
      var n := |reports| - 1;
      var earlier := AllSubmitted(reports[..n]);
      SubmittedInOrder(reports[..n]);
      IdsBeforeOfPrefix(reports, n, n);
      hide AllSubmitted;
      forall i: nat, j: nat | i < |reports| && j < |reports[i].submitted|
        ensures IsIdAt(earlier + reports[n].submitted, reports, i, j)
      {
        if i < n {
          IdsBeforeOfPrefix(reports, n, i);
          assert reports[..n][i] == reports[i];
          assert IsIdAt(earlier, reports[..n], i, j);
        }
      }
    }
  }

  /** The running report of a pass agrees with the reports of the events re-handled so far. */
  ghost predicate Tallies(report: RetryReport, events: seq<EventEnvelope>, sets: seq<set<string>>,
      reports: seq<HandleReport>)
  {
    && |sets| == |events| && OwnFailures(events, reports)
    && report.eventsRetried == |reports| && report.submitted == AllSubmitted(reports)
    && report.stillFailed == SumAgain(sets, reports) && report.recovered == SumRecovered(sets, reports)
  }

  lemma TalliesSnoc(before: RetryReport, after: RetryReport, events: seq<EventEnvelope>, sets: seq<set<string>>,
      reports: seq<HandleReport>, handled: HandleReport)
    requires Tallies(before, events, sets, reports) && |reports| < |events|
    requires forall d :: d in handled.failed ==> d.event == events[|reports|]
    requires after.eventsRetried == before.eventsRetried + 1
    requires after.submitted == before.submitted + handled.submitted
    requires after.stillFailed == before.stillFailed + |sets[|reports|] * Names(handled.failed)|
    requires after.recovered == before.recovered + |sets[|reports|] - Names(handled.failed)|
    ensures Tallies(after, events, sets, reports + [handled])
  {
    assert (reports + [handled])[..|reports|] == reports;
  }

  function Names(records: seq<DeadTriggerRecord>): set<string> {
    set d | d in records :: d.triggerName
  }

  /** How many of the pairs are among the dead ones, and how many are not. */
  ghost predicate Counted(pairs: set<(EventId, string)>, dead: set<(EventId, string)>, stillFailed: nat,
      recovered: nat)
  {
    stillFailed == |pairs * dead| && recovered == |pairs - pairs * dead|
  }

  function PairsOf(records: seq<DeadTriggerRecord>, ids: seq<EventId>): set<(EventId, string)> {
    set d | d in records && d.event.id in ids :: PairOf(d)
  }

  lemma {:induction false} FirstSeenCovers(records: seq<DeadTriggerRecord>)
    ensures Elements(FirstSeen(records)) == RecordIds(records) && Distinct(FirstSeen(records))
    ensures forall id :: id in FirstSeen(records) <==> id in RecordIds(records)
    ensures PairsOf(records, FirstSeen(records)) == Pairs(records)
  {
    if records != [] {
      FirstSeenCovers(records[..|records| - 1]);
      var last := records[|records| - 1];
      assert forall d :: d in records <==> d in records[..|records| - 1] || d == last;
      var ids := RecordIds(records[..|records| - 1]);
      assert RecordIds(records) == ids + {last.event.id};
    }
  }

  lemma SnocRecord(records: seq<DeadTriggerRecord>, d: DeadTriggerRecord)
    ensures FirstSeen(records + [d])
         == if d.event.id in FirstSeen(records) then FirstSeen(records) else FirstSeen(records) + [d.event.id]
    ensures RecordIds(records + [d]) == RecordIds(records) + {d.event.id}
    ensures LastEvent(records + [d], d.event.id) == d.event
    ensures forall id :: id in RecordIds(records) && id != d.event.id ==>
      LastEvent(records + [d], id) == LastEvent(records, id) && FailedFor(records + [d], id) == FailedFor(records, id)
    ensures FailedFor(records + [d], d.event.id) == FailedFor(records, d.event.id) + {d.triggerName}
    ensures d.event.id !in FirstSeen(records) ==> FailedFor(records, d.event.id) == {}
  {
    assert (records + [d])[..|records|] == records;
    FirstSeenCovers(records);
  }

  lemma {:induction false} LastEventHasId(records: seq<DeadTriggerRecord>, id: EventId)
    requires id in RecordIds(records)
    ensures LastEvent(records, id).id == id
  {
    if records[|records| - 1].event.id != id {
      var d :| d in records && d.event.id == id;
      assert d in records[..|records| - 1];
      LastEventHasId(records[..|records| - 1], id);
    }
  }

  /** Over a hash set: how many of the earlier failures failed again, and how many did not. */
  method CountAgain(before: set<string>, now: set<string>) returns (stillFailed: nat, recovered: nat)
    ensures stillFailed == |before * now| && recovered == |before - now|
  {
    stillFailed, recovered := 0, 0;
    var left := before;
    while left != {}
      invariant stillFailed + |left * now| == |before * now|
      invariant recovered + |left - now| == |before - now|
    {
      var name :| name in left;
      RemoveOne(left, now, name);
      if name in now {
        stillFailed := stillFailed + 1;
      } else {
        recovered := recovered + 1;
      }
      left := left - {name};
    }
  }

  lemma RemoveOne(left: set<string>, now: set<string>, name: string)
    requires name in left
    ensures |left * now| == |(left - {name}) * now| + (if name in now then 1 else 0)
    ensures |left - now| == |(left - {name}) - now| + (if name in now then 0 else 1)
  {
    assert (left - {name}) * now == left * now - {name};
    assert (left - {name}) - now == left - now - {name};
  }

  function Tag(id: EventId, names: set<string>): set<(EventId, string)> {
    set name | name in names :: (id, name)
  }

  lemma {:induction false} TagCounts(id: EventId, names: set<string>)
    ensures |Tag(id, names)| == |names|
  {
    if names != {} {
      var name :| name in names;
      TagCounts(id, names - {name});
      assert Tag(id, names) == Tag(id, names - {name}) + {(id, name)};
    }
  }

  lemma TagsOfFailed(id: EventId, dead: seq<DeadTriggerRecord>, failed: seq<DeadTriggerRecord>)
    requires forall d :: d in failed ==> d.event.id == id
    ensures Pairs(dead + failed) == Pairs(dead) + Tag(id, Names(failed))
  {
    assert forall d :: d in dead + failed <==> d in dead || d in failed;
    assert forall d :: d in failed ==> PairOf(d) == (id, d.triggerName) && d.triggerName in Names(failed);
    forall pair | pair in Tag(id, Names(failed))
      ensures pair in Pairs(dead + failed)
    {
      var d :| d in failed && d.triggerName == pair.1;
      assert PairOf(d) == pair;
    }
    forall pair | pair in Pairs(dead)
      ensures pair in Pairs(dead + failed)
    {
      var d :| d in dead && PairOf(d) == pair;
      assert d in dead + failed;
    }
  }

  lemma PairsOfNext(records: seq<DeadTriggerRecord>, ids: seq<EventId>, id: EventId)
    ensures PairsOf(records, ids + [id]) == PairsOf(records, ids) + Tag(id, FailedFor(records, id))
  {
    assert forall x :: x in ids + [id] <==> x in ids || x == id;
    forall pair | pair in PairsOf(records, ids + [id])
      ensures pair in PairsOf(records, ids) + Tag(id, FailedFor(records, id))
    {
      var d :| d in records && d.event.id in ids + [id] && PairOf(d) == pair;
    }
    forall pair | pair in Tag(id, FailedFor(records, id))
      ensures pair in PairsOf(records, ids + [id])
    {
      var d :| d in records && d.event.id == id && d.triggerName == pair.1;
      assert PairOf(d) == pair;
    }
  }

  lemma {:induction false} AllFailedLast(reports: seq<HandleReport>)
    requires reports != []
    ensures AllFailed(reports) == AllFailed(reports[..|reports| - 1]) + reports[|reports| - 1].failed
  {
    if |reports| > 1 {
      AllFailedLast(reports[1..]);
      assert reports[1..][..|reports| - 2] == reports[..|reports| - 1][1..];
    }
  }

  lemma NothingCounted(records: seq<DeadTriggerRecord>, order: seq<EventId>)
    ensures Counted(PairsOf(records, order[..0]), Pairs([]), 0, 0)
  {
    assert PairsOf(records, order[..0]) == {};
  }

  /** The sums over re-handled events count the pairs that failed again and those that did not. */
  lemma {:induction false} SumsCount(records: seq<DeadTriggerRecord>, order: seq<EventId>, events: seq<EventEnvelope>,
      sets: seq<set<string>>, reports: seq<HandleReport>)
    requires |order| == |sets| == |events| && OwnFailures(events, reports) && Distinct(order)
    requires forall i :: 0 <= i < |order| ==> events[i].id == order[i]
    requires forall i :: 0 <= i < |order| ==> sets[i] == FailedFor(records, order[i])
    ensures Counted(PairsOf(records, order[..|reports|]), Pairs(AllFailed(reports)),
                    SumAgain(sets, reports), SumRecovered(sets, reports))
  {
    hide Counted, PairsOf, Pairs;
    if reports == [] {
      NothingCounted(records, order);
    } else {
      var n := |reports| - 1;
      SumsCount(records, order, events, sets, reports[..n]);
      FailedIds(order, events, reports[..n]);
      AllFailedLast(reports);
      RetriedOne(records, order, n, AllFailed(reports[..n]), reports[n].failed,
                 SumAgain(sets, reports[..n]), SumRecovered(sets, reports[..n]));
    }
  }

  lemma {:induction false} FailedIds(order: seq<EventId>, events: seq<EventEnvelope>, reports: seq<HandleReport>)
    requires |order| == |events| && OwnFailures(events, reports)
    requires forall i :: 0 <= i < |order| ==> events[i].id == order[i]
    ensures forall d :: d in AllFailed(reports) ==> d.event.id in order[..|reports|]
  {
    if reports != [] {
      var n := |reports| - 1;
      FailedIds(order, events, reports[..n]);
      AllFailedLast(reports);
      assert order[..n + 1] == order[..n] + [order[n]];
    }
  }

  lemma SumsCountPairs(records: seq<DeadTriggerRecord>, reports: seq<HandleReport>)
    requires |reports| == |FirstSeen(records)| && OwnFailures(Retried(records), reports)
    ensures Counted(Pairs(records), Pairs(AllFailed(reports)),
                    SumAgain(FailedSets(records), reports), SumRecovered(FailedSets(records), reports))
  {
    FirstSeenCovers(records);
    forall i | 0 <= i < |FirstSeen(records)|
      ensures Retried(records)[i].id == FirstSeen(records)[i]
    {
      LastEventHasId(records, FirstSeen(records)[i]);
    }
    SumsCount(records, FirstSeen(records), Retried(records), FailedSets(records), reports);
    assert FirstSeen(records)[..|reports|] == FirstSeen(records);
  }

  /** The counts after one more event is re-handled. */
  lemma RetriedOne(records: seq<DeadTriggerRecord>, order: seq<EventId>, i: nat, dead: seq<DeadTriggerRecord>,
      failed: seq<DeadTriggerRecord>, stillFailed: nat, recovered: nat)
    requires i < |order| && Distinct(order)
    requires Counted(PairsOf(records, order[..i]), Pairs(dead), stillFailed, recovered)
    requires forall d :: d in dead ==> d.event.id in order[..i]
    requires forall d :: d in failed ==> d.event.id == order[i]
    ensures
      var mine, again := FailedFor(records, order[i]), Names(failed);
      Counted(PairsOf(records, order[..i + 1]), Pairs(dead + failed),
              stillFailed + |mine * again|, recovered + |mine - again|)
  {
    hide PairsOf, Pairs, Tag, FailedFor, Names;
    var id, mine, again := order[i], FailedFor(records, order[i]), Names(failed);
    assert id !in order[..i];
    assert order[..i + 1] == order[..i] + [id];
    PairsOfNext(records, order[..i], id);
    TagsOfFailed(id, dead, failed);
    PairsOfOthers(records, dead, order[..i], id);
    SplitByTag(id, PairsOf(records, order[..i]), Pairs(dead), mine, again,
               PairsOf(records, order[..i + 1]), Pairs(dead + failed));
  }

  lemma PairsOfOthers(records: seq<DeadTriggerRecord>, dead: seq<DeadTriggerRecord>, ids: seq<EventId>, id: EventId)
    requires id !in ids && forall d :: d in dead ==> d.event.id in ids
    ensures forall p :: p in PairsOf(records, ids) || p in Pairs(dead) ==> p.0 != id
  {
  }

  lemma SplitByTag(id: EventId, pairs: set<(EventId, string)>, dead: set<(EventId, string)>,
      mine: set<string>, again: set<string>, all: set<(EventId, string)>, allDead: set<(EventId, string)>)
    requires forall p :: p in pairs || p in dead ==> p.0 != id
    requires all == pairs + Tag(id, mine) && allDead == dead + Tag(id, again)
    ensures |all * allDead| == |pairs * dead| + |mine * again|
    ensures |all - all * allDead| == |pairs - pairs * dead| + |mine - again|
  {
    assert all * allDead == pairs * dead + Tag(id, mine * again);
    assert all - all * allDead == (pairs - pairs * dead) + Tag(id, mine - again);
    TaggedUnion(id, pairs * dead, mine * again);
    TaggedUnion(id, pairs - pairs * dead, mine - again);
  }

  lemma TaggedUnion(id: EventId, pairs: set<(EventId, string)>, names: set<string>)
    requires forall p :: p in pairs ==> p.0 != id
    ensures |pairs + Tag(id, names)| == |pairs| + |names|
  {
    TagCounts(id, names);
    assert pairs !! Tag(id, names);
  }

  /** A pass's recovered and still-failed counts add up to the number of distinct (event id, trigger name)
      pairs drained, which is the number of records drained if and only if no pair was queued twice. */
  lemma {:induction false} CountsPartitionDrainedIff(drained: seq<DeadTriggerRecord>, dead: seq<DeadTriggerRecord>,
      stillFailed: nat, recovered: nat)
    requires Counted(Pairs(drained), Pairs(dead), stillFailed, recovered)
    ensures stillFailed + recovered == |Pairs(drained)|
    ensures stillFailed + recovered == |drained| <==> DistinctPairs(drained)
  {
    var again := Pairs(drained) * Pairs(dead);
    assert Pairs(drained) == again + (Pairs(drained) - again);
    PairCount(drained);
  }

  ghost predicate DistinctPairs(records: seq<DeadTriggerRecord>) {
    forall i, j :: 0 <= i < j < |records| ==> PairOf(records[i]) != PairOf(records[j])
  }

  lemma {:induction false} PairCount(records: seq<DeadTriggerRecord>)
    ensures |Pairs(records)| <= |records|
    ensures |Pairs(records)| == |records| <==> DistinctPairs(records)
  {
    if records != [] {
      PairCount(records[..|records| - 1]);
      LastPair(records);
      DistinctSnoc(records);
    }
  }

  lemma DistinctSnoc(records: seq<DeadTriggerRecord>)
    requires records != []
    ensures
      var n := |records| - 1;
      DistinctPairs(records) <==> DistinctPairs(records[..n]) && PairOf(records[n]) !in Pairs(records[..n])
  {
    var n := |records| - 1;
    assert forall i :: 0 <= i < n ==> records[..n][i] == records[i] && records[i] in records[..n];
  }

  lemma LastPair(records: seq<DeadTriggerRecord>)
    requires records != []
    ensures Pairs(records) == Pairs(records[..|records| - 1]) + {PairOf(records[|records| - 1])}
  {
    var n := |records| - 1;
    assert forall d :: d in records <==> d in records[..n] || d == records[n];
  }
}
