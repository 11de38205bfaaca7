/** Exactly which events make the job that answers an event's submission the event's own. */
module DeliveryOwners {
  import opened Base
  import opened Backoff
  import opened JsonlStores
  import opened EventStores
  import opened Registry
  import opened Runtime
  import opened Ingest
  import opened Delivery
  import opened DeliveryPaths
  import opened DeliveryInvariants
  import opened DeliveryHistory
  import opened DeliveryTheorems
  import opened DeliveryExactness
  import opened HandlingSteps
  import opened OperationSteps

  /** A job of `d` does the work of `e` too: it is the same event, or one with the same idempotency key. */
  predicate IsDuplicateOf(d: EventEnvelope, e: EventEnvelope) {
    d == e || (e.metadata.idempotencyKey.Some? && d.metadata.idempotencyKey == e.metadata.idempotencyKey)
  }

  ghost predicate HasOwnLiveJob(jobs: seq<Job>, e: EventEnvelope, r: RegisteredTrigger) {
    exists j :: 0 <= j < |jobs| && jobs[j].live && IsDuplicateOf(jobs[j].event, e) && jobs[j].trigger == r
  }

  /** At step `k` of a run that has stored only the given events, under names that tell keys apart, the event's
      submission is accepted although no job of its own answers it. */
  ghost predicate Mistakes(events: set<EventEnvelope>, cfg: Config, states: seq<State>, steps: seq<Step>, k: nat,
      e: EventEnvelope, r: RegisteredTrigger)
  {
    && GoodConfig(cfg) && Execution(cfg, states, steps) && k < |steps| && states[k + 1].facts.stored <= events
    && Answers(states[k], steps[k], e, r) && !HasOwnLiveJob(states[k + 1].jobs, e, r)
  }

  ghost predicate JobsAreOwn(events: set<EventEnvelope>) {
    forall cfg: Config, states: seq<State>, steps: seq<Step>, k: nat, e: EventEnvelope, r: RegisteredTrigger ::
      !Mistakes(events, cfg, states, steps, k, e, r)
  }

  /** No event without a key has the id that another event has for its key. */
  ghost predicate KeysAreNoIds(events: set<EventEnvelope>) {
    forall d, e :: d in events && e in events && d.id != e.id && e.metadata.idempotencyKey.None? ==>
      d.metadata.idempotencyKey != Some(e.id)
  }

  /** Whatever the triggers and the run, every accepted submission is answered by a job of that event or of one with
      its idempotency key, if and only if no event's key is the id of another event that has no key. */
  lemma JobsAreOwnIff(events: set<EventEnvelope>)
    ensures JobsAreOwn(events) <==> KeysAreNoIds(events)
  {
    hide Execution, Answers, HasOwnLiveJob, GoodConfig;
    if KeysAreNoIds(events) {
      forall cfg: Config, states: seq<State>, steps: seq<Step>, k: nat, e: EventEnvelope, r: RegisteredTrigger
        ensures !Mistakes(events, cfg, states, steps, k, e, r)
      {
        if Mistakes(events, cfg, states, steps, k, e, r) {
          AnsweredByOwn(events, cfg, states, steps, k, e, r);
        }
      }
    } else {
      var d, e :| d in events && e in events && d.id != e.id && e.metadata.idempotencyKey.None?
                  && d.metadata.idempotencyKey == Some(e.id);
      var cfg, states, steps, k, r := MistakingRun(e, d);
      assert Mistakes(events, cfg, states, steps, k, d, r);
    }
  }

  /** Stored events of one identity are duplicates of each other, unless a key clashes with an id. */
  lemma SameIdentity(events: set<EventEnvelope>, d: EventEnvelope, e: EventEnvelope)
    requires KeysAreNoIds(events) && d in events && e in events && Identity(d) == Identity(e)
    requires d.id == e.id ==> d == e
    ensures IsDuplicateOf(d, e)
  {
  }

  lemma AnsweredByOwn(events: set<EventEnvelope>, cfg: Config, states: seq<State>, steps: seq<Step>, k: nat,
      e: EventEnvelope, r: RegisteredTrigger)
    requires KeysAreNoIds(events) && GoodConfig(cfg) && Execution(cfg, states, steps) && k < |steps|
    requires states[k + 1].facts.stored <= events && Answers(states[k], steps[k], e, r)
    ensures HasOwnLiveJob(states[k + 1].jobs, e, r)
  {
    var s, after := states[k], states[k + 1];
    InvHolds(cfg, states, steps, k);
    InvHolds(cfg, states, steps, k + 1);
    AnsweredAt(cfg, states, steps, k, e, r);
    AnswersStored(cfg, s, steps[k], e, r);
    hide Enabled, Apply, Answers, GoodConfig, KeysAreNoIds, BrokerInv;
    var j :| 0 <= j < |after.jobs| && after.jobs[j].live && Identity(after.jobs[j].event) == Identity(e)
             && after.jobs[j].trigger == r;
    assert after.jobs[j].event in Written(after) && e in Written(after);
    SameIdentity(events, after.jobs[j].event, e);
  }

  lemma AnswersStored(cfg: Config, s: State, step: Step, e: EventEnvelope, r: RegisteredTrigger)
    requires StoreInv(cfg, s) && Enabled(cfg, s, step) && Answers(s, step, e, r)
    ensures e in Apply(cfg, s, step).facts.stored
  {
    StoredTask(cfg, s, step.t);
    StoredStep(cfg, s, step);
  }

  /** The event's submission was accepted at a step before state `i`, and right after it a job of its own was live. */
  ghost predicate WasOwnlyAnswered(states: seq<State>, steps: seq<Step>, i: nat, e: EventEnvelope, r: RegisteredTrigger)
    requires i < |states| == |steps| + 1
  {
    exists k :: 0 <= k < i && Answers(states[k], steps[k], e, r) && HasOwnLiveJob(states[k + 1].jobs, e, r)
  }

  /** No acknowledged event is lost or taken for another: while no stored event's key is the id of another without a
      key, every stored event awaits a restart, was removed by a hard bound or a prune, or has, for every trigger that
      matches it, a submission answered by a job of its own or a recorded failure. */
  lemma NoEventIsTakenForAnother(cfg: Config, states: seq<State>, steps: seq<Step>, i: nat, e: EventEnvelope)
    requires GoodConfig(cfg) && Execution(cfg, states, steps) && i < |states| && e in states[i].facts.stored
    requires KeysAreNoIds(states[i].facts.stored)
    ensures
      || AwaitsRestart(states[i], e)
      || WasRemoved(cfg, states, steps, i, e)
      || forall r :: r in cfg.Matching(e) ==>
           WasOwnlyAnswered(states, steps, i, e, r) || WasRecorded(states, steps, i, (e, r.name))
  {
    ExecutionLength(cfg, states, steps);
    hide Execution, Answers, Records, HasLiveJob, HasOwnLiveJob, GoodConfig, AwaitsRestart, WasRemoved, KeysAreNoIds;
    NoAcknowledgedEventIsLost(cfg, states, steps, i, e);
    if AllDealtWith(cfg, states, steps, i, e) {
      forall r | r in cfg.Matching(e) && WasAnswered(states, steps, i, e, r)
        ensures WasOwnlyAnswered(states, steps, i, e, r)
      {
        var k :| 0 <= k < i && Answers(states[k], steps[k], e, r) && HasLiveJob(states[k + 1].jobs, Identity(e), r);
        StoredStays(cfg, states, steps, k + 1, i);
        AnsweredByOwn(states[i].facts.stored, cfg, states, steps, k, e, r);
      }
    }
  }

  // ------------------------------------------------------------------ a run that takes one event for another

  /** One trigger, named "t", that every event matches. */
  const CATCH_ALL: RegisteredTrigger :=
    RegisteredTrigger("t", 0, true, AllOf([]), WorklaneJobBinding("lane", "kind", 1, None))

  lemma EveryEventMatches(cfg: Config, e: EventEnvelope)
    requires cfg.registrations == [CATCH_ALL]
    ensures cfg.Matching(e) == [CATCH_ALL]
  {
    FilterSingle(Selects(cfg.read, e), [CATCH_ALL], 0);
  }

  lemma OneNameIsGood(cfg: Config)
    requires cfg.registrations == [CATCH_ALL]
    ensures GoodConfig(cfg)
  {
    assert TriggerNames(cfg.registrations) == ["t"];
    KeysTellApartIff(["t"]);
  }

  /** Two events of one identity that are not duplicates, such as an event without a key and then one whose key is its
      id, are ingested under one trigger: everything succeeds, and the submission of the second is answered by the job
      of the first. */
  lemma MistakingRun(d: EventEnvelope, e: EventEnvelope)
      returns (cfg: Config, states: seq<State>, steps: seq<Step>, k: nat, r: RegisteredTrigger)
    requires d.id != e.id && Identity(d) == Identity(e) && !IsDuplicateOf(d, e)
    ensures Mistakes({d, e}, cfg, states, steps, k, e, r)
    ensures k < |steps| && |states| == |steps| + 1 && states[k + 1].facts.stored <= {d, e}
  {
    hide Execution, GoodConfig, Answers, HasOwnLiveJob;
    r := CATCH_ALL;
    cfg := Config([r], READER, ANY_LANE, 1, 1, (e: EventEnvelope) => 0, (d: DeadTriggerRecord) => 0);
    OneNameIsGood(cfg);
    states, steps := BothIngested(cfg, d, e);
    k := AnsweredSomewhere(cfg, states, steps, e);
    NoOwnJob(cfg, states, steps, k, d, e);
  }

  lemma NoOwnJob(cfg: Config, states: seq<State>, steps: seq<Step>, k: nat, d: EventEnvelope, e: EventEnvelope)
    requires !IsDuplicateOf(d, e) && Execution(cfg, states, steps) && k < |steps|
    requires
      var s := states[|steps|];
      |s.jobs| == 1 && s.jobs[0].event == d && s.facts.stored == {d, e}
    ensures states[k + 1].facts.stored <= {d, e} && !HasOwnLiveJob(states[k + 1].jobs, e, CATCH_ALL)
  {
    hide Apply, Enabled;
    JobsStay(cfg, states, steps, k + 1, |steps|);
    StoredStays(cfg, states, steps, k + 1, |steps|);
  }

  lemma BothIngested(cfg: Config, d: EventEnvelope, e: EventEnvelope) returns (states: seq<State>, steps: seq<Step>)
    requires d.id != e.id && Identity(d) == Identity(e) && !IsDuplicateOf(d, e)
    requires GoodConfig(cfg) && cfg.registrations == [CATCH_ALL] && cfg.read == READER && cfg.validLane == ANY_LANE
    requires cfg.attempts == 1
    ensures Execution(cfg, states, steps) && |states| == |steps| + 1
    ensures
      var s := states[|steps|];
      && |s.jobs| == 1 && s.jobs[0].event == d && s.facts.stored == {d, e}
      && s.facts.dead == {} && s.bounded == {} && e.id in s.journal
  {
    var ctx := Context(FRIENDLY, RuntimeOptions(1, 0), [CATCH_ALL]);
    CommandStarts(cfg);
    hide Apply, Enabled, Path, Execution, Shows, ShowsStore, GoodConfig;
    var s := Initial().(phase := Command);
    var first, middle, w := StoreFirst(cfg, ctx, s, d);
    var second, after := StoreSecond(cfg, ctx, middle, w, d, e);
    var early := PathExtendsRun(cfg, [Initial(), s], [Restart(true)], first, middle);
    var start := [Restart(true)] + first;
    ExecutionLength(cfg, early, start);
    JobIsOfStored(cfg, early, start, d);
    PathKeepsJobs(cfg, middle, second, after);
    states := PathExtendsRun(cfg, early, start, second, after);
    steps := start + second;
    ExecutionLength(cfg, states, steps);
  }

  lemma StoreFirst(cfg: Config, ctx: Context, s: State, d: EventEnvelope)
      returns (steps: seq<Step>, after: State, w: World)
    requires SameSettings(cfg, ctx) && ctx.env == FRIENDLY && ctx.registrations == [CATCH_ALL]
    requires s == Initial().(phase := Command)
    ensures Path(cfg, s, steps, after) && Shows(after, w) && ShowsStore(after, StoreState([d], {d.id}))
    ensures after.tasks == map[] && after.phase.Command? && after.bounded == {} && after.disk == [d]
    ensures after.facts.stored == {d} && after.facts.dead == {} && w.dead == []
    ensures |after.jobs| == |w.jobs| == 1 && w.jobs[0].live
    ensures w.jobs[0].newJob.uniqueKey == SubmissionKey(Identity(d), "t")
  {
    var none := World([], [], [], 0);
    EveryEventMatches(cfg, d);
    FriendlyHandling(ctx, d, CATCH_ALL, none);
    DuplicateIff([], d);
    hide Handle, Leads;
    steps, after := IngestingIsARunOfSteps(cfg, ctx, 0, s, none, StoreState([], {}), d, Appended, Appended);
    LeadsIsPath(cfg, 0, s, steps, after);
    w := Handle(ctx, d, none).0;
    assert [] + [d] == [d];
    NoFailures(after, w);
  }

  lemma StoreSecond(cfg: Config, ctx: Context, s: State, w: World, d: EventEnvelope, e: EventEnvelope)
      returns (steps: seq<Step>, after: State)
    requires SameSettings(cfg, ctx) && ctx.env == FRIENDLY && ctx.registrations == [CATCH_ALL]
    requires d.id != e.id && Identity(d) == Identity(e) && !IsDuplicateOf(d, e)
    requires Shows(s, w) && ShowsStore(s, StoreState([d], {d.id})) && s.tasks == map[] && s.phase.Command?
    requires s.disk == [d] && s.bounded == {} && s.facts.stored == {d} && s.facts.dead == {} && w.dead == []
    requires |w.jobs| == 1 && w.jobs[0].live && w.jobs[0].newJob.uniqueKey == SubmissionKey(Identity(d), "t")
    ensures Path(cfg, s, steps, after) && |after.jobs| == 1 && after.bounded == {}
    ensures after.facts.stored == {d, e} && after.facts.dead == {} && e.id in after.journal
  {
    EveryEventMatches(cfg, e);
    FriendlyHandling(ctx, e, CATCH_ALL, w);
    assert LiveJob(w.jobs, SubmissionKey(Identity(e), "t")) == 0;
    DuplicateIff([d], e);
    hide Handle, Leads;
    steps, after := IngestingIsARunOfSteps(cfg, ctx, 0, s, w, StoreState([d], {d.id}), e, Appended, Appended);
    LeadsIsPath(cfg, 0, s, steps, after);
    NoFailures(after, Handle(ctx, e, w).0);
    assert e.id in Elements(after.journal);
  }

  lemma JobIsOfStored(cfg: Config, states: seq<State>, steps: seq<Step>, d: EventEnvelope)
    requires GoodConfig(cfg) && Execution(cfg, states, steps)
    requires states[|steps|].facts.stored == {d} && |states[|steps|].jobs| == 1
    ensures states[|steps|].jobs[0].event == d
  {
    InvHolds(cfg, states, steps, |steps|);
  }

  lemma {:induction false} PathKeepsJobs(cfg: Config, s: State, steps: seq<Step>, after: State)
    requires Path(cfg, s, steps, after)
    ensures KeepsJobs(s.jobs, after.jobs)
    decreases |steps|
  {
    hide Apply, Enabled;
    if steps != [] {
      StepKeepsJobs(cfg, s, steps[0]);
      PathKeepsJobs(cfg, Apply(cfg, s, steps[0]), steps[1..], after);
    }
  }

  /** An event that is journalled, was never removed and has no recorded failure had its submission accepted. */
  lemma AnsweredSomewhere(cfg: Config, states: seq<State>, steps: seq<Step>, e: EventEnvelope) returns (k: nat)
    requires GoodConfig(cfg) && Execution(cfg, states, steps) && cfg.registrations == [CATCH_ALL]
    requires
      var s := states[|steps|];
      e in s.facts.stored && e.id in s.journal && s.bounded == {} && s.facts.dead == {}
    ensures k < |steps| && Answers(states[k], steps[k], e, CATCH_ALL)
  {
    hide Answers, Records, Apply, Enabled, GoodConfig;
    var i := |steps|;
    NoAcknowledgedEventIsLost(cfg, states, steps, i, e);
    BoundedIffRemoved(cfg, states, steps, i, e);
    DeadIffRecorded(cfg, states, steps, i, (e, "t"));
    EveryEventMatches(cfg, e);
    assert CATCH_ALL in cfg.Matching(e);
    k :| k < i && Answers(states[k], steps[k], e, CATCH_ALL);
  }
}
