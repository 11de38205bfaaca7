/** What handling an event does, call by call and trigger by trigger, in terms of the configured option, the binding and
    the environment's answers. */
module HandleReports {
  import opened Base
  import opened Backoff
  import opened Registry
  import opened Runtime

  // ------------------------------------------------------------------ one submission

  /** Calls `from` to `to` are one submission: all with this job and key, none but the last accepted, at least one, and
      as many as the option allows, or one if it allows none, when none is accepted. */
  ghost predicate IsSubmission(ctx: Context, calls: seq<NewJob>, from: nat, to: nat, newJob: NewJob, accepted: bool) {
    var most := if ctx.options.maxSubmissionAttempts == 0 then 1 else ctx.options.maxSubmissionAttempts;
    && from < to <= |calls| && to - from <= most
    && (forall i :: from <= i < to ==> calls[i] == newJob)
    && (forall i :: from <= i < to - 1 ==> !ctx.env.outcome(i).Accepts?)
    && (accepted <==> ctx.env.outcome(to - 1).Accepts?)
    && (!accepted ==> to - from == most)
  }

  /** A submission for a valid lane makes between one and the configured number of calls, stops at the first accepted
      one, returns the live job under the key then, and gives up if and only if that many calls were refused. For an
      invalid lane it makes none. */
  lemma EnqueueIsExact(ctx: Context, job: WorklaneJob, key: string, w: World)
    ensures
      var (after, result) := Enqueue(ctx, job, key, w);
      var most := if ctx.options.maxSubmissionAttempts == 0 then 1 else ctx.options.maxSubmissionAttempts;
      && Grows(ctx.env, w, after) && after.dead == w.dead && after.writes == w.writes
      && (!ctx.env.validLane(job.lane) ==> after == w && result.Err?)
      && (ctx.env.validLane(job.lane) ==>
            && IsSubmission(ctx, after.calls, |w.calls|, |after.calls|, NewJob(job, key), result.Ok?)
            && (result.Err? <==> forall i :: |w.calls| <= i < |w.calls| + most ==> !ctx.env.outcome(i).Accepts?)
            && (result.Ok? ==> IsLiveJob(after.jobs, result.value, key)))
  {
    GrowsNot(ctx.env, w);
    if ctx.env.validLane(job.lane) {
      SubmitCalls(ctx.env, NewJob(job, key), ctx.Attempts(), w);
      SubmitWritesNothing(ctx.env, NewJob(job, key), ctx.Attempts(), w);
      CallsGrow(ctx.env, w, Submit(ctx.env, NewJob(job, key), ctx.Attempts(), w).0);
    }
  }

  lemma {:induction false} SubmitWritesNothing(env: Environment, newJob: NewJob, attempts: nat, w: World)
    requires attempts > 0
    ensures Submit(env, newJob, attempts, w).0.writes == w.writes
  {
    if attempts > 1 { SubmitWritesNothing(env, newJob, attempts - 1, Call(env, newJob, w).0); }
  }

  // ------------------------------------------------------------------ one matched trigger

  /** Nothing keeps the trigger from being submitted: its transform takes the event, and its lane is valid. */
  ghost predicate Sendable(ctx: Context, e: EventEnvelope, r: RegisteredTrigger) {
    (r.binding.transform.Some? ==> r.binding.transform.value(e).Ok?) && ctx.env.validLane(r.binding.lane)
  }

  /** The job has the binding's lane, kind and attempts, and the payload its transform makes of the event, or the
      event's own if it has none; the key is the event's idempotency key, or its id, with the trigger's name. */
  ghost predicate Asks(newJob: NewJob, e: EventEnvelope, r: RegisteredTrigger) {
    && newJob.job.lane == r.binding.lane && newJob.job.kind == r.binding.kind
    && newJob.job.maxAttempts == r.binding.maxAttempts
    && (r.binding.transform.None? ==> newJob.job.payload == e.payload)
    && (r.binding.transform.Some? ==> r.binding.transform.value(e) == Ok(newJob.job.payload))
    && (e.metadata.idempotencyKey.None? ==> newJob.uniqueKey == e.id + ":" + r.name)
    && (e.metadata.idempotencyKey.Some? ==> newJob.uniqueKey == e.metadata.idempotencyKey.value + ":" + r.name)
  }

  /** Calls `from` to `to` are what the trigger asks for the event. */
  ghost predicate Attempted(ctx: Context, calls: seq<NewJob>, from: nat, to: nat, e: EventEnvelope,
      r: RegisteredTrigger, accepted: bool)
  {
    if Sendable(ctx, e, r) then
      exists newJob :: Asks(newJob, e, r) && IsSubmission(ctx, calls, from, to, newJob, accepted)
    else from == to <= |calls| && !accepted
  }

  lemma AttemptedLater(ctx: Context, calls: seq<NewJob>, more: seq<NewJob>, from: nat, to: nat, e: EventEnvelope,
      r: RegisteredTrigger, accepted: bool)
    requires Attempted(ctx, calls, from, to, e, r, accepted) && calls <= more
    ensures Attempted(ctx, more, from, to, e, r, accepted)
  {
    if Sendable(ctx, e, r) {
      var newJob :| Asks(newJob, e, r) && IsSubmission(ctx, calls, from, to, newJob, accepted);
      assert IsSubmission(ctx, more, from, to, newJob, accepted);
    }
  }

  /** The id is that of a live job under the key of the event and the trigger. */
  ghost predicate IsIdFor(jobs: seq<BrokerJob>, id: nat, e: EventEnvelope, r: RegisteredTrigger) {
    IsLiveJob(jobs, id, SubmissionKey(Identity(e), r.name))
  }

  /** The record is of the event and the trigger, with the transform's reason if it was the transform that failed. */
  ghost predicate IsRecordFor(d: DeadTriggerRecord, e: EventEnvelope, r: RegisteredTrigger) {
    && d.event == e && d.triggerName == r.name
    && (r.binding.transform.Some? && r.binding.transform.value(e).Err? ==>
          d.error == r.binding.transform.value(e).error)
  }

  lemma TryIsExact(ctx: Context, r: RegisteredTrigger, e: EventEnvelope, w: World)
    ensures
      var (after, result) := Try(ctx, r, e, w);
      && Grows(ctx.env, w, after) && after.dead == w.dead && after.writes == w.writes
      && Attempted(ctx, after.calls, |w.calls|, |after.calls|, e, r, result.Ok?)
      && (result.Ok? ==> IsIdFor(after.jobs, result.value, e, r))
      && (result.Err? ==> IsRecordFor(DeadTriggerRecord(e, r.name, result.error), e, r))
  {
    GrowsNot(ctx.env, w);
    if r.binding.Bind(e).Ok? {
      var newJob := NewJob(r.binding.Bind(e).value, SubmissionKey(Identity(e), r.name));
      EnqueueIsExact(ctx, newJob.job, newJob.uniqueKey, w);
      assert Asks(newJob, e, r);
    }
    hide Enqueue, Grows, IsSubmission, Asks;
  }

  // ------------------------------------------------------------------ one event

  /** What became of a matched trigger, and the number of calls made by then: a job's id, a record in the queue, or a
      failure the queue did not take. */
  datatype Routing =
    | Accepted(calls: nat, id: nat)
    | Recorded(calls: nat, record: DeadTriggerRecord)
    | Unrecorded(calls: nat)

  function IdsOf(routings: seq<Routing>): seq<nat> {
    if routings == [] then []
    else (if routings[0].Accepted? then [routings[0].id] else []) + IdsOf(routings[1..])
  }

  function RecordsOf(routings: seq<Routing>): seq<DeadTriggerRecord> {
    if routings == [] then []
    else (if routings[0].Recorded? then [routings[0].record] else []) + RecordsOf(routings[1..])
  }

  /** The routing is the trigger's own. */
  ghost predicate IsRoutingOf(jobs: seq<BrokerJob>, e: EventEnvelope, r: RegisteredTrigger, routing: Routing) {
    match routing
    case Accepted(_, id) => IsIdFor(jobs, id, e, r)
    case Recorded(_, record) => IsRecordFor(record, e, r)
    case Unrecorded(_) => true
  }

  /** From the world before to the world after, the triggers were routed like this, in order: each was attempted after
      the one before it; one that was not accepted cost the next write to the queue; and the write that failed, if one
      did, was the end. */
  ghost predicate IsCourse(ctx: Context, e: EventEnvelope, triggers: seq<RegisteredTrigger>, calls: nat, writes: nat,
      after: World, routings: seq<Routing>)
    decreases |routings|
  {
    if routings == [] then triggers == [] && calls == |after.calls| && writes == after.writes
    else
      var first := routings[0];
      && triggers != []
      && Attempted(ctx, after.calls, calls, first.calls, e, triggers[0], first.Accepted?)
      && IsRoutingOf(after.jobs, e, triggers[0], first)
      && match first
         case Accepted(end, _) => IsCourse(ctx, e, triggers[1..], end, writes, after, routings[1..])
         case Recorded(end, _) =>
           ctx.env.writeSucceeds(writes) && IsCourse(ctx, e, triggers[1..], end, writes + 1, after, routings[1..])
         case Unrecorded(end) =>
           !ctx.env.writeSucceeds(writes) && |routings| == 1 && end == |after.calls| && writes + 1 == after.writes
  }

  /** Ids of live jobs stay that while jobs are only added. */
  lemma RoutingStays(before: seq<BrokerJob>, after: seq<BrokerJob>, e: EventEnvelope, r: RegisteredTrigger,
      routing: Routing)
    requires before <= after && IsRoutingOf(before, e, r, routing)
    ensures IsRoutingOf(after, e, r, routing)
  {
  }

  lemma CourseCons(ctx: Context, e: EventEnvelope, triggers: seq<RegisteredTrigger>, w: World, middle: World,
      after: World, first: Routing, rest: seq<Routing>)
    requires triggers != [] && Grows(ctx.env, middle, after) && first.calls == |middle.calls|
    requires Attempted(ctx, middle.calls, |w.calls|, |middle.calls|, e, triggers[0], first.Accepted?)
    requires IsRoutingOf(middle.jobs, e, triggers[0], first)
    requires middle.writes == if first.Accepted? then w.writes else w.writes + 1
    requires !first.Accepted? ==> (first.Recorded? <==> ctx.env.writeSucceeds(w.writes))
    requires if first.Unrecorded? then rest == [] && after == middle
             else IsCourse(ctx, e, triggers[1..], |middle.calls|, middle.writes, after, rest)
    ensures IsCourse(ctx, e, triggers, |w.calls|, w.writes, after, [first] + rest)
  {
    CallsGrow(ctx.env, middle, after);
    AttemptedLater(ctx, middle.calls, after.calls, |w.calls|, |middle.calls|, e, triggers[0], first.Accepted?);
    RoutingStays(middle.jobs, after.jobs, e, triggers[0], first);
    hide Attempted, Grows, IsRoutingOf;
    assert ([first] + rest)[1..] == rest;
  }

  lemma RoutingsCons(first: Routing, rest: seq<Routing>)
    ensures IdsOf([first] + rest) == (if first.Accepted? then [first.id] else []) + IdsOf(rest)
    ensures RecordsOf([first] + rest) == (if first.Recorded? then [first.record] else []) + RecordsOf(rest)
  {
    assert ([first] + rest)[1..] == rest;
  }

  lemma {:induction false} HandleFromIsExact(ctx: Context, matching: seq<RegisteredTrigger>, e: EventEnvelope,
      report: HandleReport, w: World)
      returns (routings: seq<Routing>)
    ensures
      var (after, result) := HandleFrom(ctx, matching, e, report, w);
      && Grows(ctx.env, w, after)
      && IsCourse(ctx, e, matching, |w.calls|, w.writes, after, routings)
      && after.dead == w.dead + RecordsOf(routings)
      && (result.Ok? <==> forall i :: 0 <= i < |routings| ==> !routings[i].Unrecorded?)
      && (result.Ok? ==>
            result.value == HandleReport(report.submitted + IdsOf(routings), report.failed + RecordsOf(routings)))
    decreases |matching|
  {
    routings := [];
    if matching == [] {
      GrowsNot(ctx.env, w);
      assert report.submitted + [] == report.submitted && report.failed + [] == report.failed;
      assert w.dead + [] == w.dead;
    } else {
      var first := RoutingOf(ctx, matching[0], e, w);
      hide HandleOne, IsCourse, Attempted, IsRoutingOf, Grows, IdsOf, RecordsOf;
      var (middle, outcome) := HandleOne(ctx, matching[0], e, w);
      var after := HandleFrom(ctx, matching, e, report, w).0;
      var rest := [];
      if outcome.Ok? {
        var added := AddOutcome(report, outcome.value);
        rest := HandleFromIsExact(ctx, matching[1..], e, added, middle);
        GrowsOn(ctx.env, w, middle, after);
      } else {
        GrowsNot(ctx.env, middle);
        NoRoutings();
      }
      CourseCons(ctx, e, matching, w, middle, after, first, rest);
      routings := [first] + rest;
      RoutingsCons(first, rest);
      JoinsUp(report.submitted, first, IdsOf(rest));
      AssociateRecords(report.failed, if first.Recorded? then [first.record] else [], RecordsOf(rest));
      AssociateRecords(w.dead, if first.Recorded? then [first.record] else [], RecordsOf(rest));
    }
  }

  lemma NoRoutings()
    ensures IdsOf([]) == [] && RecordsOf([]) == []
  {
  }

  lemma JoinsUp(a: seq<nat>, first: Routing, c: seq<nat>)
    ensures
      var b := if first.Accepted? then [first.id] else [];
      (a + b) + c == a + (b + c) && a + [] == a
  {
  }

  lemma AssociateRecords(a: seq<DeadTriggerRecord>, b: seq<DeadTriggerRecord>, c: seq<DeadTriggerRecord>)
    ensures (a + b) + c == a + (b + c) && a + [] == a
  {
  }

  /** One matched trigger's routing. */
  lemma RoutingOf(ctx: Context, r: RegisteredTrigger, e: EventEnvelope, w: World) returns (routing: Routing)
    ensures
      var (after, outcome) := HandleOne(ctx, r, e, w);
      && Grows(ctx.env, w, after) && routing.calls == |after.calls|
      && Attempted(ctx, after.calls, |w.calls|, |after.calls|, e, r, routing.Accepted?)
      && IsRoutingOf(after.jobs, e, r, routing)
      && after.writes == (if routing.Accepted? then w.writes else w.writes + 1)
      && (!routing.Accepted? ==> (routing.Recorded? <==> ctx.env.writeSucceeds(w.writes)))
      && after.dead == w.dead + (if routing.Recorded? then [routing.record] else [])
      && (if routing.Unrecorded? then outcome.Err?
          else outcome == Ok(if routing.Accepted? then Submitted(routing.id) else Failed(routing.record)))
  {
    TryIsExact(ctx, r, e, w);
    hide Try, Attempted, IsIdFor, IsRecordFor, Grows;
    var (tried, result) := Try(ctx, r, e, w);
    assert w.dead + [] == w.dead;
    if result.Ok? {
      routing := Accepted(|tried.calls|, result.value);
    } else {
      var record := DeadTriggerRecord(e, r.name, result.error);
      var (after, _) := Record(ctx.env, record, tried);
      SameCallsGrow(ctx.env, w, tried, after);
      routing := if ctx.env.writeSucceeds(w.writes) then Recorded(|tried.calls|, record)
                 else Unrecorded(|tried.calls|);
    }
  }

  /** All that handling an event does. Its matching triggers are attempted one after the other, each with the calls that
      `IsSubmission` describes and the job that `Asks` describes, or with none if its transform rejects the event or its
      lane is invalid. A trigger without an accepted call costs one write to the queue; handling ends in an error
      exactly at a write that fails, and otherwise when every trigger was attempted. The report's ids are those of live
      jobs of the accepted triggers, in order, and the records, in the report and at the end of the queue, are those of
      the others, in order. */
  lemma HandlingIsExact(ctx: Context, e: EventEnvelope, w: World) returns (routings: seq<Routing>)
    ensures
      var (after, result) := Handle(ctx, e, w);
      && IsCourse(ctx, e, ctx.Matching(e), |w.calls|, w.writes, after, routings)
      && after.dead == w.dead + RecordsOf(routings)
      && (result.Ok? <==> forall i :: 0 <= i < |routings| ==> !routings[i].Unrecorded?)
      && (result.Ok? ==> result.value == HandleReport(IdsOf(routings), RecordsOf(routings)))
  {
    routings := HandleFromIsExact(ctx, ctx.Matching(e), e, HandleReport([], []), w);
    assert [] + IdsOf(routings) == IdsOf(routings) && [] + RecordsOf(routings) == RecordsOf(routings);
  }

  /** Of each trigger that matches, the report has a live job's id or a record, in order, and nothing else. */
  ghost predicate ReportIs(ctx: Context, e: EventEnvelope, jobs: seq<BrokerJob>, report: HandleReport) {
    exists routings: seq<Routing> :: Reports(ctx.Matching(e), e, jobs, routings, report)
  }

  ghost predicate Reports(triggers: seq<RegisteredTrigger>, e: EventEnvelope, jobs: seq<BrokerJob>,
      routings: seq<Routing>, report: HandleReport)
  {
    && |routings| == |triggers|
    && (forall i :: 0 <= i < |routings| ==>
          !routings[i].Unrecorded? && IsRoutingOf(jobs, e, triggers[i], routings[i]))
    && report == HandleReport(IdsOf(routings), RecordsOf(routings))
  }

  lemma {:induction false} CourseReports(ctx: Context, e: EventEnvelope, triggers: seq<RegisteredTrigger>, calls: nat,
      writes: nat, after: World, routings: seq<Routing>)
    requires IsCourse(ctx, e, triggers, calls, writes, after, routings)
    requires forall i :: 0 <= i < |routings| ==> !routings[i].Unrecorded?
    ensures |routings| == |triggers|
    ensures forall i :: 0 <= i < |routings| ==> IsRoutingOf(after.jobs, e, triggers[i], routings[i])
    decreases |routings|
  {
    hide Attempted, IsRoutingOf;
    if routings != [] {
      var first := routings[0];
      CourseReports(ctx, e, triggers[1..], first.calls, if first.Accepted? then writes else writes + 1, after,
                    routings[1..]);
      assert forall i :: 0 < i < |routings| ==> routings[i] == routings[1..][i - 1];
      assert forall i :: 0 < i < |triggers| ==> triggers[i] == triggers[1..][i - 1];
    }
  }

  lemma HandledReportIs(ctx: Context, e: EventEnvelope, w: World)
    ensures
      var (after, result) := Handle(ctx, e, w);
      result.Ok? ==> ReportIs(ctx, e, after.jobs, result.value)
  {
    var routings := HandlingIsExact(ctx, e, w);
    hide Handle, IsRoutingOf;
    var (after, result) := Handle(ctx, e, w);
    if result.Ok? {
      CourseReports(ctx, e, ctx.Matching(e), |w.calls|, w.writes, after, routings);
      assert Reports(ctx.Matching(e), e, after.jobs, routings, result.value);
    }
  }

  // ------------------------------------------------------------------ several events

  lemma ReportStays(ctx: Context, e: EventEnvelope, before: seq<BrokerJob>, after: seq<BrokerJob>,
      report: HandleReport)
    requires before <= after && ReportIs(ctx, e, before, report)
    ensures ReportIs(ctx, e, after, report)
  {
    hide IsRoutingOf;
    var triggers := ctx.Matching(e);
    var routings: seq<Routing> :| Reports(triggers, e, before, routings, report);
    forall i | 0 <= i < |routings|
      ensures IsRoutingOf(after, e, triggers[i], routings[i])
    {
      RoutingStays(before, after, e, triggers[i], routings[i]);
    }
    assert Reports(triggers, e, after, routings, report);
  }

  /** The i-th report is that of the i-th event, whose jobs are still live at the end. */
  ghost predicate ReportsAre(ctx: Context, events: seq<EventEnvelope>, jobs: seq<BrokerJob>,
      reports: seq<HandleReport>)
  {
    |reports| <= |events| && forall i :: 0 <= i < |reports| ==> ReportIs(ctx, events[i], jobs, reports[i])
  }

  lemma {:induction false} PassReportsAre(ctx: Context, events: seq<EventEnvelope>, w: World)
    ensures
      var (after, reports) := HandleEach(ctx, events, w);
      ReportsAre(ctx, events, after.jobs, reports)
  {
    hide Handle, ReportIs, Grows, OneLivePerKey, AllSettled, AllOwn, Owned;
    if events != [] {
      HandledReportIs(ctx, events[0], w);
      var (middle, result) := Handle(ctx, events[0], w);
      if result.Ok? {
        var (after, reports) := HandleEach(ctx, events[1..], middle);
        PassReportsAre(ctx, events[1..], middle);
        HandleEachGuarantees(ctx, events[1..], middle);
        CallsGrow(ctx.env, middle, after);
        ReportStays(ctx, events[0], middle.jobs, after.jobs, result.value);
        forall i | 0 <= i < |reports| + 1
          ensures ReportIs(ctx, events[i], after.jobs, ([result.value] + reports)[i])
        {
          if i > 0 { assert events[i] == events[1..][i - 1]; }
        }
      }
    }
  }
}
