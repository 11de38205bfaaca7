/** The runtime's handling loop, seen as steps of the delivery protocol: what `Handle` computes on the broker and
    the dead-trigger queue is what a protocol task does to them, so the theorems about runs cover the runtime. */
module HandlingSteps {
  import opened Base
  import opened Registry
  import opened Runtime
  import opened Delivery
  import opened DeliveryPaths

  ghost predicate SameSettings(cfg: Config, ctx: Context) {
    && cfg.registrations == ctx.registrations && cfg.read == ctx.env.read
    && cfg.validLane == ctx.env.validLane && cfg.attempts == ctx.Attempts()
  }

  /** The same jobs, live or done, under the same keys, each of the binding of the registration it is for. */
  ghost predicate SameJobs(jobs: seq<Job>, brokerJobs: seq<BrokerJob>) {
    && |jobs| == |brokerJobs|
    && forall i :: 0 <= i < |jobs| ==>
         && jobs[i].live == brokerJobs[i].live && jobs[i].Key() == brokerJobs[i].newJob.uniqueKey
         && OfBinding(brokerJobs[i].newJob.job, jobs[i].trigger.binding)
  }

  ghost predicate SameQueue(queue: seq<DeadTriggerRecord>, dead: seq<DeadTriggerRecord>) {
    && |queue| == |dead|
    && forall i :: 0 <= i < |queue| ==> queue[i].event == dead[i].event && queue[i].triggerName == dead[i].triggerName
  }

  /** The protocol state shows the same broker jobs, by key, and the same failures. */
  ghost predicate Shows(s: State, w: World) {
    SameJobs(s.jobs, w.jobs) && SameQueue(s.queue, w.dead)
  }

  /** Task `t` is handling `e` with these triggers to do. */
  ghost predicate IsAt(s: State, t: nat, e: EventEnvelope, todo: seq<RegisteredTrigger>, attempt: nat, plan: Plan) {
    !s.phase.Down? && t in s.tasks && s.tasks[t] == Handling(e, todo, attempt, plan)
  }

  /** Handling in task `t` leaves alone the log, the journal, the set, the channel and the other tasks; the queue only
      grows, and every newly recorded failure is in it. */
  ghost predicate Aside(s: State, after: State, t: nat) {
    && after.phase == s.phase && after.disk == s.disk && after.log == s.log && after.journal == s.journal
    && after.delivered == s.delivered
    && after.channel == s.channel && after.bounded == s.bounded && after.facts.stored == s.facts.stored
    && after.tasks - {t} == s.tasks - {t}
    && s.queue <= after.queue
    && forall p :: p in after.facts.dead ==> p in s.facts.dead || IsQueued(after.queue, p.0, p.1)
  }

  lemma AsideOn(a: State, b: State, c: State, t: nat)
    requires Aside(a, b, t) && Aside(b, c, t)
    ensures Aside(a, c, t)
  {
    forall p | p in c.facts.dead
      ensures p in a.facts.dead || IsQueued(c.queue, p.0, p.1)
    {
      if IsQueued(b.queue, p.0, p.1) {
        var d :| d in b.queue && d.event == p.0 && d.triggerName == p.1;
        assert d in c.queue;
      }
    }
  }

  ghost predicate Handles(cfg: Config, t: nat, s: State, steps: seq<Step>, after: State) {
    Leads(cfg, t, s, steps, after) && Aside(s, after, t)
  }

  lemma HandlesOn(cfg: Config, t: nat, s: State, first: seq<Step>, middle: State, second: seq<Step>, after: State)
    requires Handles(cfg, t, s, first, middle) && Handles(cfg, t, middle, second, after)
    ensures Handles(cfg, t, s, first + second, after)
  {
    LeadsOn(cfg, t, s, first, middle, second, after);
    AsideOn(s, middle, after, t);
  }

  lemma CallIsAside(cfg: Config, s: State, step: Step)
    requires step.Enqueue? && Enabled(cfg, s, step)
    ensures Aside(s, Apply(cfg, s, step), step.t)
  {
    hide Held, Accepted, FirstTask, Proceed, Fail, BoundedAway, KeepsHistory, KeyIsLive;
  }

  lemma DeadLetterIsAside(cfg: Config, s: State, step: Step)
    requires step.DeadLetter? && Enabled(cfg, s, step)
    ensures Aside(s, Apply(cfg, s, step), step.t)
  {
    hide Held, Accepted, FirstTask, Proceed, BoundedAway, KeepsHistory;
    if step.written {
      var task := s.tasks[step.t];
      assert DeadTriggerRecord(task.e, task.todo[0].name, "") in Apply(cfg, s, step).queue;
    }
  }

  lemma HandlesByOne(cfg: Config, t: nat, s: State, step: Step)
    requires (step.Enqueue? || step.DeadLetter?) && step.t == t && Enabled(cfg, s, step)
    ensures Handles(cfg, t, s, [step], Apply(cfg, s, step))
  {
    LeadsByOne(cfg, t, s, step);
    hide Aside, Apply, Enabled;
    if step.Enqueue? { CallIsAside(cfg, s, step); } else { DeadLetterIsAside(cfg, s, step); }
  }

  lemma HandlesNot(cfg: Config, t: nat, s: State)
    ensures Handles(cfg, t, s, [], s)
  {
    LeadsNowhere(cfg, t, s);
  }

  /** The call submits what the trigger binds the event to, under the key of the event and the trigger. */
  ghost predicate Submits(newJob: NewJob, e: EventEnvelope, r: RegisteredTrigger) {
    newJob.uniqueKey == SubmissionKey(Identity(e), r.name) && r.binding.Bind(e) == Ok(newJob.job)
  }

  lemma LandShows(s: State, w: World, e: EventEnvelope, r: RegisteredTrigger, newJob: NewJob)
    requires Shows(s, w) && Submits(newJob, e, r)
    ensures SameJobs(LandJob(s, e, r).jobs, Land(w.jobs, newJob).0)
  {
    var id := LiveJob(w.jobs, newJob.uniqueKey);
    if id < |w.jobs| {
      assert s.jobs[id].live && s.jobs[id].Key() == newJob.uniqueKey;
    }
  }

  /** What the step changes. */
  lemma CallChanges(cfg: Config, s: State, t: nat, outcome: EnqueueOutcome)
    requires Enabled(cfg, s, Enqueue(t, outcome))
    ensures
      var after, task := Apply(cfg, s, Enqueue(t, outcome)), s.tasks[t];
      && after.jobs == (if outcome.FailsBefore? then s.jobs else LandJob(s, task.e, task.todo[0]).jobs)
      && after.queue == s.queue && after.phase == s.phase
      && after.tasks == s.tasks[t := if outcome.Accepts? then task.(todo := task.todo[1..], attempt := 0)
                                     else task.(attempt := task.attempt + 1)]
  {
  }

  /** One call to the broker is one step. */
  lemma CallStep(cfg: Config, ctx: Context, t: nat, s: State, w: World, newJob: NewJob,
      e: EventEnvelope, todo: seq<RegisteredTrigger>, attempt: nat, plan: Plan)
      returns (step: Step)
    requires Shows(s, w) && IsAt(s, t, e, todo, attempt, plan) && todo != [] && cfg.Submittable(todo[0], e)
    requires attempt < cfg.attempts && Submits(newJob, e, todo[0])
    ensures step.Enqueue? && step.t == t && Enabled(cfg, s, step)
    ensures
      var (called, result) := Call(ctx.env, newJob, w);
      var after := Apply(cfg, s, step);
      && Shows(after, called)
      && if result.Ok? then IsAt(after, t, e, todo[1..], 0, plan) else IsAt(after, t, e, todo, attempt + 1, plan)
  {
    var outcome := ctx.env.outcome(|w.calls|);
    step := Enqueue(t, outcome);
    CallChanges(cfg, s, t, outcome);
    hide Apply, LandJob, Land, Shows, Call;
    CallShows(ctx, s, Apply(cfg, s, step), w, newJob, e, todo[0]);
  }

  lemma CallShows(ctx: Context, s: State, after: State, w: World, newJob: NewJob, e: EventEnvelope,
      r: RegisteredTrigger)
    requires Shows(s, w) && Submits(newJob, e, r) && after.queue == s.queue
    requires after.jobs == if ctx.env.outcome(|w.calls|).FailsBefore? then s.jobs else LandJob(s, e, r).jobs
    ensures
      var (called, result) := Call(ctx.env, newJob, w);
      Shows(after, called) && (result.Ok? <==> ctx.env.outcome(|w.calls|).Accepts?)
  {
    LandShows(s, w, e, r, newJob);
    hide LandJob, Land, SameJobs, SameQueue;
  }

  /** A submission with retries is a run of steps. */
  lemma {:induction false} SubmitSteps(cfg: Config, ctx: Context, t: nat, s: State, w: World, newJob: NewJob,
      attempts: nat, e: EventEnvelope, todo: seq<RegisteredTrigger>, plan: Plan)
      returns (steps: seq<Step>, after: State)
    requires 0 < attempts <= cfg.attempts
    requires Shows(s, w) && IsAt(s, t, e, todo, cfg.attempts - attempts, plan)
    requires todo != [] && cfg.Submittable(todo[0], e)
    requires Submits(newJob, e, todo[0])
    ensures Handles(cfg, t, s, steps, after)
    ensures
      var (submitted, result) := Submit(ctx.env, newJob, attempts, w);
      && Shows(after, submitted)
      && if result.Ok? then IsAt(after, t, e, todo[1..], 0, plan) else IsAt(after, t, e, todo, cfg.attempts, plan)
    decreases attempts
  {
    var step := CallStep(cfg, ctx, t, s, w, newJob, e, todo, cfg.attempts - attempts, plan);
    HandlesByOne(cfg, t, s, step);
    hide Call, Apply, Shows, Handles;
    var (called, result) := Call(ctx.env, newJob, w);
    steps, after := [step], Apply(cfg, s, step);
    if result.Err? && attempts > 1 {
      var more;
      more, after := SubmitSteps(cfg, ctx, t, after, called, newJob, attempts - 1, e, todo, plan);
      HandlesOn(cfg, t, s, steps, Apply(cfg, s, step), more, after);
      steps := steps + more;
    }
  }

  /** The task has given up: the dispatcher is back at the channel, any other is gone. */
  ghost predicate GaveUp(s: State, t: nat, purpose: Purpose) {
    if purpose.ForDispatch? then t in s.tasks && s.tasks[t] == Receiving else t !in s.tasks
  }

  /** One write to the dead-trigger queue is one step. */
  lemma DeadStep(cfg: Config, ctx: Context, t: nat, s: State, w: World, record: DeadTriggerRecord,
      todo: seq<RegisteredTrigger>, attempt: nat, plan: Plan)
      returns (step: Step)
    requires Shows(s, w) && IsAt(s, t, record.event, todo, attempt, plan) && todo != []
    requires record.triggerName == todo[0].name
    requires !cfg.Submittable(todo[0], record.event) || attempt >= cfg.attempts
    ensures step.DeadLetter? && step.t == t && Enabled(cfg, s, step)
    ensures
      var (recorded, written) := Record(ctx.env, record, w);
      var after := Apply(cfg, s, step);
      && Shows(after, recorded)
      && if written.Ok? then IsAt(after, t, record.event, todo[1..], 0, plan) else GaveUp(after, t, plan.purpose)
  {
    step := DeadLetter(t, ctx.env.writeSucceeds(w.writes));
  }

  /** The submission of one matched trigger, up to its success or its last failure. */
  lemma TryOne(cfg: Config, ctx: Context, t: nat, s: State, w: World, e: EventEnvelope,
      todo: seq<RegisteredTrigger>, plan: Plan)
      returns (steps: seq<Step>, after: State, attempt: nat)
    requires SameSettings(cfg, ctx) && Shows(s, w) && IsAt(s, t, e, todo, 0, plan) && todo != []
    ensures Handles(cfg, t, s, steps, after)
    ensures
      var (tried, result) := Try(ctx, todo[0], e, w);
      && Shows(after, tried)
      && if result.Ok? then IsAt(after, t, e, todo[1..], 0, plan)
         else IsAt(after, t, e, todo, attempt, plan) && (!cfg.Submittable(todo[0], e) || attempt >= cfg.attempts)
  {
    if cfg.Submittable(todo[0], e) {
      hide Shows, Handles, Submit;
      var newJob := NewJob(todo[0].binding.Bind(e).value, SubmissionKey(Identity(e), todo[0].name));
      steps, after := SubmitSteps(cfg, ctx, t, s, w, newJob, cfg.attempts, e, todo, plan);
      attempt := cfg.attempts;
    } else {
      HandlesNot(cfg, t, s);
      steps, after, attempt := [], s, 0;
    }
  }

  /** Routing one matched trigger is a run of steps. */
  lemma HandleOneSteps(cfg: Config, ctx: Context, t: nat, s: State, w: World, e: EventEnvelope,
      todo: seq<RegisteredTrigger>, plan: Plan)
      returns (steps: seq<Step>, after: State)
    requires SameSettings(cfg, ctx) && Shows(s, w) && IsAt(s, t, e, todo, 0, plan) && todo != []
    ensures Handles(cfg, t, s, steps, after)
    ensures
      var (handled, outcome) := HandleOne(ctx, todo[0], e, w);
      && Shows(after, handled)
      && if outcome.Ok? then IsAt(after, t, e, todo[1..], 0, plan) else GaveUp(after, t, plan.purpose)
  {
    var attempt;
    steps, after, attempt := TryOne(cfg, ctx, t, s, w, e, todo, plan);
    hide Shows, Handles, Apply, Enabled, IsAt, Try, Record;
    var (tried, result) := Try(ctx, todo[0], e, w);
    if result.Err? {
      var middle, record := after, DeadTriggerRecord(e, todo[0].name, result.error);
      var step := DeadStep(cfg, ctx, t, middle, tried, record, todo, attempt, plan);
      HandlesByOne(cfg, t, middle, step);
      HandlesOn(cfg, t, s, steps, middle, [step], Apply(cfg, middle, step));
      steps, after := steps + [step], Apply(cfg, middle, step);
    }
  }

  lemma {:induction false} HandleFromSteps(cfg: Config, ctx: Context, t: nat, s: State, w: World, e: EventEnvelope,
      todo: seq<RegisteredTrigger>, report: HandleReport, plan: Plan)
      returns (steps: seq<Step>, after: State)
    requires SameSettings(cfg, ctx) && Shows(s, w) && IsAt(s, t, e, todo, 0, plan)
    ensures Handles(cfg, t, s, steps, after)
    ensures
      var (handled, result) := HandleFrom(ctx, todo, e, report, w);
      Shows(after, handled) && if result.Ok? then IsAt(after, t, e, [], 0, plan) else GaveUp(after, t, plan.purpose)
    decreases |todo|
  {
    if todo == [] {
      HandlesNot(cfg, t, s);
      steps, after := [], s;
    } else {
      hide Shows, Handles, IsAt, GaveUp, HandleOne, SameSettings;
      steps, after := HandleOneSteps(cfg, ctx, t, s, w, e, todo, plan);
      var (middle, outcome) := HandleOne(ctx, todo[0], e, w);
      if outcome.Ok? {
        var added := AddOutcome(report, outcome.value);
        var more, last := HandleFromSteps(cfg, ctx, t, after, middle, e, todo[1..], added, plan);
        HandlesOn(cfg, t, s, steps, after, more, last);
        steps, after := steps + more, last;
      }
    }
  }

  /** The runtime's handling of an event is a run of protocol steps of one task: from any state showing the
      runtime's broker and queue in which the task has just taken up the event, steps of that task alone lead to
      a state showing what `Handle` leaves, with no trigger left to do if it succeeds and the task given up if
      it fails. */
  lemma HandlingIsARunOfSteps(cfg: Config, ctx: Context, t: nat, s: State, w: World, e: EventEnvelope, plan: Plan)
      returns (steps: seq<Step>, after: State)
    requires SameSettings(cfg, ctx) && Shows(s, w) && IsAt(s, t, e, cfg.Matching(e), 0, plan)
    ensures Handles(cfg, t, s, steps, after)
    ensures
      var (handled, result) := Handle(ctx, e, w);
      Shows(after, handled) && if result.Ok? then IsAt(after, t, e, [], 0, plan) else GaveUp(after, t, plan.purpose)
  {
    steps, after := HandleFromSteps(cfg, ctx, t, s, w, e, cfg.Matching(e), HandleReport([], []), plan);
  }
}
