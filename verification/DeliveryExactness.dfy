/** Exactly which trigger names make delivery lose nothing. */
module DeliveryExactness {
  import opened Base
  import opened Backoff
  import opened JsonlStores
  import opened EventStores
  import opened Registry
  import opened Runtime
  import opened Ingest
  import opened Delivery
  import opened DeliveryPaths
  import opened DeliveryInvariants
  import opened DeliveryHistory
  import opened DeliveryTheorems
  import opened HandlingSteps
  import opened OperationSteps

  /** A run under these names, with any triggers, loses the stored event. */
  ghost predicate Loses(names: seq<string>, cfg: Config, states: seq<State>, steps: seq<Step>, i: nat,
      e: EventEnvelope)
  {
    && TriggerNames(cfg.registrations) == names && Execution(cfg, states, steps) && i < |states|
    && e in states[i].facts.stored && !IsSafe(cfg, states, steps, i, e)
  }

  /** Whatever triggers are registered under these names, in every state of every run, every stored event is safe. */
  ghost predicate NothingIsLost(names: seq<string>) {
    forall cfg: Config, states: seq<State>, steps: seq<Step>, i: nat, e: EventEnvelope ::
      !Loses(names, cfg, states, steps, i, e)
  }

  /** Delivery loses nothing under given trigger names, whatever the triggers and the run, if and only if the names are
      pairwise distinct and none ends with a colon and another. */
  lemma NothingIsLostIff(names: seq<string>)
    ensures NothingIsLost(names) <==> Distinct(names) && Unambiguous(names)
  {
    KeysTellApartIff(names);
    hide Execution, IsSafe, KeysTellApart;
    if KeysTellApart(names) {
      forall cfg: Config, states: seq<State>, steps: seq<Step>, i: nat, e: EventEnvelope
        ensures !Loses(names, cfg, states, steps, i, e)
      {
        if TriggerNames(cfg.registrations) == names && Execution(cfg, states, steps) && i < |states|
           && e in states[i].facts.stored {
          NoAcknowledgedEventIsLost(cfg, states, steps, i, e);
        }
      }
    } else {
      var cfg, states, steps, e := SwallowingRun(names);
      assert Loses(names, cfg, states, steps, |steps|, e);
    }
  }

  // ------------------------------------------------------------------ a run that swallows a trigger

  const READER: PayloadReader := (payload: seq<byte>, pointer: string) => None
  const ANY_LANE: string -> bool := (lane: string) => true
  /** A broker that accepts every call, a queue that takes every record. */
  const FRIENDLY: Environment := Environment((n: nat) => Accepts, (n: nat) => true, ANY_LANE, READER)

  /** Registration `m` matches events of type "d" and `n` those of type "e"; the others are disabled. */
  function Registrations(names: seq<string>, m: nat, n: nat): (registrations: seq<RegisteredTrigger>)
    ensures TriggerNames(registrations) == names
  {
    seq(|names|, k requires 0 <= k < |names| =>
      RegisteredTrigger(names[k], 0, k == m || k == n, EventTypeTrigger(if k == m then "d" else "e"),
                        WorklaneJobBinding("lane", "kind", k, None)))
  }

  function Event(id: EventId, eventType: string, key: Option<string>): EventEnvelope {
    EventEnvelope(id, Http, eventType, [], 0, EventMetadata(None, None, None, key, None))
  }

  /** With one matching trigger and a friendly environment, handling is one call, accepted. */
  lemma FriendlyHandling(ctx: Context, e: EventEnvelope, r: RegisteredTrigger, w: World)
    requires ctx.env == FRIENDLY && ctx.Matching(e) == [r] && r.binding.transform.None?
    ensures
      var newJob := NewJob(WorklaneJob(r.binding.lane, r.binding.kind, e.payload, r.binding.maxAttempts),
                           SubmissionKey(Identity(e), r.name));
      var (after, result) := Handle(ctx, e, w);
      result.Ok? && after.jobs == Land(w.jobs, newJob).0 && after.dead == w.dead
  {
    assert [r][1..] == [];
    var (after, outcome) := HandleOne(ctx, r, e, w);
    assert outcome.Ok?;
    assert HandleFrom(ctx, [], e, AddOutcome(HandleReport([], []), outcome.value), after).0 == after;
  }

  lemma OneMatches(names: seq<string>, m: nat, n: nat, ctx: Context, e: EventEnvelope)
    requires m < |names| && n < |names| && m != n && ctx.registrations == Registrations(names, m, n)
    requires e.eventType == "d" || e.eventType == "e"
    ensures ctx.Matching(e) == [ctx.registrations[if e.eventType == "d" then m else n]]
  {
    FilterSingle(Selects(ctx.env.read, e), ctx.registrations, if e.eventType == "d" then m else n);
  }

  /** Two positions and two identities that share a key, and an event of the second identity that no event of the
      first makes a duplicate. */
  lemma Collision(names: seq<string>) returns (m: nat, n: nat, e: EventEnvelope)
    requires !KeysTellApart(names)
    ensures m < |names| && n < |names| && m != n
    ensures SubmissionKey("0", names[m]) == SubmissionKey(Identity(e), names[n])
    ensures e.id == "0" && e.eventType == "e" && e.payload == []
    ensures e.metadata.idempotencyKey != Some("0")
  {
    KeysTellApartIff(names);
    if !Distinct(names) {
      m, n :| 0 <= m < n < |names| && names[m] == names[n];
      e := Event("0", "e", None);
    } else {
      m, n :| 0 <= m < |names| && 0 <= n < |names| && EndsWith(names[m], ":" + names[n]);
      var j := Ambiguity("0", names[m], names[n]);
      e := Event("0", "e", Some(j));
    }
  }

  /** Names that do not tell keys apart: two events are ingested, the broker accepts everything, and the second event
      ends journalled as delivered with its trigger neither submitted nor recorded as failed. */
  lemma SwallowingRun(names: seq<string>)
      returns (cfg: Config, states: seq<State>, steps: seq<Step>, e: EventEnvelope)
    requires !KeysTellApart(names)
    ensures TriggerNames(cfg.registrations) == names && Execution(cfg, states, steps) && |states| == |steps| + 1
    ensures e in states[|steps|].facts.stored && !IsSafe(cfg, states, steps, |steps|, e)
  {
    var m, n;
    m, n, e := Collision(names);
    var registrations := Registrations(names, m, n);
    cfg := Config(registrations, READER, ANY_LANE, 1, 1, (e: EventEnvelope) => 0, (d: DeadTriggerRecord) => 0);
    var ctx := Context(FRIENDLY, RuntimeOptions(1, 0), registrations);
    var d := Event("1", "d", Some("0"));

    CommandStarts(cfg);
    hide Apply, Enabled, Path, Execution, Shows, ShowsStore;
    var s := Initial().(phase := Command);
    var first, middle, w := IngestFirst(cfg, ctx, names, m, n, s, d);
    var second, after := IngestSecond(cfg, ctx, names, m, n, middle, w, d, e);

    states := [Initial(), s];
    steps := [Restart(true)];
    states := PathExtendsRun(cfg, states, steps, first, middle);
    steps := steps + first;
    states := PathExtendsRun(cfg, states, steps, second, after);
    steps := steps + second;
    ExecutionLength(cfg, states, steps);
    NotSafe(cfg, states, steps, registrations[n], e);
  }

  lemma CommandStarts(cfg: Config)
    ensures Execution(cfg, [Initial(), Initial().(phase := Command)], [Restart(true)])
  {
    assert Apply(cfg, Initial(), Restart(true)) == Initial().(phase := Command);
  }

  lemma IngestFirst(cfg: Config, ctx: Context, names: seq<string>, m: nat, n: nat, s: State, d: EventEnvelope)
      returns (steps: seq<Step>, after: State, w: World)
    requires m < |names| && n < |names| && m != n && SameSettings(cfg, ctx) && ctx.env == FRIENDLY
    requires ctx.registrations == Registrations(names, m, n) && d == Event("1", "d", Some("0"))
    requires s == Initial().(phase := Command)
    ensures Path(cfg, s, steps, after) && Shows(after, w) && ShowsStore(after, StoreState([d], {"1"}))
    ensures after.tasks == map[] && after.phase.Command? && after.bounded == {} && after.disk == [d]
    ensures after.facts.stored == {d} && after.facts.dead == {} && w.dead == []
    ensures |w.jobs| == 1 && w.jobs[0].live && w.jobs[0].newJob.uniqueKey == SubmissionKey("0", names[m])
    ensures w.jobs[0].newJob.job.maxAttempts == m
  {
    var none := World([], [], [], 0);
    OneMatches(names, m, n, ctx, d);
    FriendlyHandling(ctx, d, ctx.registrations[m], none);
    hide Handle, Leads;
    steps, after := IngestingIsARunOfSteps(cfg, ctx, 0, s, none, StoreState([], {}), d, Appended, Appended);
    LeadsIsPath(cfg, 0, s, steps, after);
    w := Handle(ctx, d, none).0;
    assert [] + [d] == [d];
    NoFailures(after, w);
  }

  lemma LeadsIsPath(cfg: Config, t: nat, s: State, steps: seq<Step>, after: State)
    requires Leads(cfg, t, s, steps, after)
    ensures Path(cfg, s, steps, after)
  {
  }

  lemma NoFailures(s: State, w: World)
    requires Shows(s, w) && w.dead == []
    ensures forall e, name :: !IsQueued(s.queue, e, name)
  {
  }

  lemma IngestSecond(cfg: Config, ctx: Context, names: seq<string>, m: nat, n: nat, s: State, w: World,
      d: EventEnvelope, e: EventEnvelope)
      returns (steps: seq<Step>, after: State)
    requires m < |names| && n < |names| && m != n && SameSettings(cfg, ctx) && ctx.env == FRIENDLY
    requires ctx.registrations == Registrations(names, m, n) && d == Event("1", "d", Some("0"))
    requires SubmissionKey("0", names[m]) == SubmissionKey(Identity(e), names[n])
    requires e.id == "0" && e.eventType == "e" && e.payload == [] && e.metadata.idempotencyKey != Some("0")
    requires Shows(s, w) && ShowsStore(s, StoreState([d], {"1"})) && s.tasks == map[] && s.phase.Command?
    requires s.disk == [d] && s.bounded == {} && s.facts.stored == {d} && s.facts.dead == {} && w.dead == []
    requires |w.jobs| == 1 && w.jobs[0].live && w.jobs[0].newJob.uniqueKey == SubmissionKey("0", names[m])
    requires w.jobs[0].newJob.job.maxAttempts == m
    ensures Path(cfg, s, steps, after) && after.bounded == {}
    ensures e in after.facts.stored && after.facts.dead == {} && e.id in Elements(after.journal)
    ensures |after.jobs| == 1 && after.jobs[0].trigger.binding.maxAttempts == m
    ensures cfg.Matching(e) == [ctx.registrations[n]] && ctx.registrations[n].binding.maxAttempts == n
  {
    OneMatches(names, m, n, ctx, e);
    FriendlyHandling(ctx, e, ctx.registrations[n], w);
    assert LiveJob(w.jobs, SubmissionKey(Identity(e), names[n])) == 0;
    DuplicateIff([d], e);
    hide Handle, Leads;
    steps, after := IngestingIsARunOfSteps(cfg, ctx, 0, s, w, StoreState([d], {"1"}), e, Appended, Appended);
    LeadsIsPath(cfg, 0, s, steps, after);
    NoFailures(after, Handle(ctx, e, w).0);
  }

  lemma ExecutionLength(cfg: Config, states: seq<State>, steps: seq<Step>)
    requires Execution(cfg, states, steps)
    ensures |states| == |steps| + 1
  {
  }

  /** Jobs end, but they are never forgotten. */
  ghost predicate KeepsJobs(jobs: seq<Job>, later: seq<Job>) {
    && |jobs| <= |later|
    && forall j :: 0 <= j < |jobs| ==> later[j].event == jobs[j].event && later[j].trigger == jobs[j].trigger
  }

  lemma StepKeepsJobs(cfg: Config, s: State, step: Step)
    requires Enabled(cfg, s, step)
    ensures KeepsJobs(s.jobs, Apply(cfg, s, step).jobs)
  {
    if !step.Enqueue? && !step.JobEnds? { JobsUntouched(cfg, s, step); }
  }

  lemma {:induction false} JobsStay(cfg: Config, states: seq<State>, steps: seq<Step>, j: nat, i: nat)
    requires Execution(cfg, states, steps) && j <= i < |states|
    ensures KeepsJobs(states[j].jobs, states[i].jobs)
  {
    hide Apply, Enabled;
    if j < i {
      JobsStay(cfg, states, steps, j, i - 1);
      StepKeepsJobs(cfg, states[i - 1], steps[i - 1]);
    }
  }

  lemma NotSafe(cfg: Config, states: seq<State>, steps: seq<Step>, r: RegisteredTrigger, e: EventEnvelope)
    requires Execution(cfg, states, steps) && r in cfg.Matching(e)
    requires
      var s := states[|steps|];
      && s.bounded == {} && s.facts.dead == {} && e.id in Elements(s.journal)
      && forall j :: 0 <= j < |s.jobs| ==> s.jobs[j].trigger != r
    ensures !IsSafe(cfg, states, steps, |steps|, e)
  {
    hide Answers, Records, Apply, Enabled;
    BoundedIffRemoved(cfg, states, steps, |steps|, e);
    DeadIffRecorded(cfg, states, steps, |steps|, (e, r.name));
    if WasAnswered(states, steps, |steps|, e, r) {
      var k :| 0 <= k < |steps| && Answers(states[k], steps[k], e, r)
               && HasLiveJob(states[k + 1].jobs, Identity(e), r);
      JobsStay(cfg, states, steps, k + 1, |steps|);
    }
  }
}
