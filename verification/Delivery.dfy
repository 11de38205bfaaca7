/** The delivery protocol as a state machine: any number of ingests, dispatches, replays, retries, recoveries
    and sweeps interleave step by step, and the process may crash and restart between any two steps. A process is
    a server, which recovers what is undelivered before it takes on anything else, or a one-shot command. */
module Delivery {
  import opened Base
  import opened Retention
  import opened EventStores
  import opened Registry
  import opened Runtime
  import opened TriggerRuntimes
  import opened Ingest

  datatype Config = Config(
    registrations: seq<RegisteredTrigger>,
    read: PayloadReader,
    validLane: string -> bool,
    attempts: nat,
    capacity: nat,
    size: EventEnvelope -> nat,
    deadSize: DeadTriggerRecord -> nat)
  {
    function Matching(e: EventEnvelope): seq<RegisteredTrigger> {
      Filter(Selects(read, e), registrations)
    }

    /** Binding and lane allow a submission at all. */
    predicate Submittable(r: RegisteredTrigger, e: EventEnvelope) {
      match r.binding.Bind(e)
      case Ok(job) => validLane(job.lane)
      case Err(_) => false
    }
  }

  /** No two registrations share a name, and no name ends with a colon and a registered name. */
  ghost predicate GoodConfig(cfg: Config) {
    KeysTellApart(TriggerNames(cfg.registrations))
  }

  // ------------------------------------------------------------------ tasks

  /** What a task handles events for. Only the first three mark what they handled delivered. */
  datatype Purpose = ForIngest | ForDispatch | ForRecovery | ForReplay | ForRetry
  {
    predicate Marks() { ForIngest? || ForDispatch? || ForRecovery? }
  }

  /** The events a task still has to handle after the current one. */
  datatype Plan = Plan(purpose: Purpose, rest: seq<EventEnvelope>)

  datatype MarkStage = CheckSet | WriteJournal | InsertInSet

  datatype Task =
    | Ingesting(e: EventEnvelope, asynchronous: bool)
    | Sending(e: EventEnvelope)
    | Receiving
    | Handling(e: EventEnvelope, todo: seq<RegisteredTrigger>, attempt: nat, plan: Plan)
    | Marking(e: EventEnvelope, stage: MarkStage, plan: Plan)
    | Sweeping(policy: AutoRetention, now: int, snapshot: set<EventId>)
    | Trimming(ids: set<EventId>)
    | Resetting(ids: set<EventId>)

  /** A job the broker created, from a submission for this event and registration. */
  datatype Job = Job(event: EventEnvelope, trigger: RegisteredTrigger, live: bool)
  {
    function Key(): string { SubmissionKey(Identity(event), trigger.name) }

    function Pair(): (string, RegisteredTrigger) { (Identity(event), trigger) }
  }

  // ------------------------------------------------------------------ states

  /** What has ever happened, kept across crashes: events whose append succeeded or that a crash left on disk,
      identities and registrations a job was created for, events and registrations whose submission the broker
      accepted, failures written to the dead-trigger queue. */
  datatype Facts = Facts(
    stored: set<EventEnvelope>,
    created: seq<(string, RegisteredTrigger)>,
    answered: seq<(EventEnvelope, RegisteredTrigger)>,
    dead: set<(EventEnvelope, string)>)

  /** `Starting` is a server that has not recovered yet. */
  datatype Phase = Down | Starting | Serving | Command

  datatype State = State(
    // on disk and in the broker
    disk: seq<EventEnvelope>,                    // the log file; it may hold more than memory, never less
    journal: seq<EventId>,
    queue: seq<DeadTriggerRecord>,
    jobs: seq<Job>,
    // in memory
    phase: Phase,
    log: seq<EventEnvelope>,
    delivered: set<EventId>,
    channel: seq<EventEnvelope>,
    tasks: map<nat, Task>,
    // history
    facts: Facts,
    open: set<(EventEnvelope, string)>,          // failures recorded and not submitted with success since
    bounded: set<EventEnvelope>,                 // removed undelivered and not stored again since
    dropped: set<(EventEnvelope, string)>,       // failures given up and not recorded again since
    // history of the asynchronous path since the last start
    sent: seq<EventEnvelope>,
    received: seq<EventEnvelope>,
    accepted: set<EventEnvelope>,
    finished: set<EventEnvelope>,
    left: set<EventEnvelope>)                    // cancelled or failed: left undelivered for a restart

  function Initial(): State {
    State([], [], [], [], Down, [], {}, [], map[], Facts({}, [], [], {}), {}, {}, {}, [], [], {}, {}, {})
  }

  /** Only tasks, phase and what became of tasks' events may differ. */
  ghost predicate KeepsHistory(s: State, after: State) {
    && after.disk == s.disk && after.journal == s.journal && after.queue == s.queue && after.jobs == s.jobs
    && after.log == s.log && after.delivered == s.delivered && after.channel == s.channel && after.facts == s.facts
    && after.open == s.open && after.bounded == s.bounded
    && after.sent == s.sent && after.received == s.received && after.accepted == s.accepted
  }

  function FirstTask(cfg: Config, events: seq<EventEnvelope>, purpose: Purpose): Task
    requires events != []
  {
    Handling(events[0], cfg.Matching(events[0]), 0, Plan(purpose, events[1..]))
  }

  function Put(s: State, t: nat, task: Task): State {
    s.(tasks := s.tasks[t := task])
  }

  function End(s: State, t: nat): State {
    s.(tasks := s.tasks - {t})
  }

  /** The event was dealt with: on to the next, back to the channel, or done; a recovery that is done opens the
      server. */
  function Proceed(cfg: Config, s: State, t: nat, e: EventEnvelope, plan: Plan): (after: State)
    ensures KeepsHistory(s, after) && after.left == s.left && after.dropped == s.dropped
  {
    if plan.rest != [] then Put(s, t, FirstTask(cfg, plan.rest, plan.purpose))
    else if plan.purpose.ForDispatch? then Put(s, t, Receiving).(finished := s.finished + {e})
    else if plan.purpose.ForRecovery? then End(s, t).(phase := Serving)
    else End(s, t)
  }

  /** The failed triggers a retry task has drained and not yet routed again. */
  ghost function Held(cfg: Config, task: Task): set<(EventEnvelope, string)> {
    if task.Handling? && task.plan.purpose.ForRetry? then
      (set r | r in task.todo :: (task.e, r.name))
      + (set d, r | d in task.plan.rest && r in cfg.Matching(d) :: (d, r.name))
    else {}
  }

  /** The task's event of an asynchronous accept, if it has one. */
  function Accepted(task: Task): set<EventEnvelope> {
    if task.Sending? then {task.e}
    else if (task.Handling? || task.Marking?) && task.plan.purpose.ForDispatch? then {task.e}
    else {}
  }

  /** The task stops for good. */
  ghost function Abandon(cfg: Config, s: State, t: nat): State
    requires t in s.tasks
  {
    End(s, t).(dropped := s.dropped + Held(cfg, s.tasks[t]), left := s.left + Accepted(s.tasks[t]))
  }

  /** Handling or marking reported an error: the dispatcher logs it and goes on, other tasks return it. */
  ghost function Fail(cfg: Config, s: State, t: nat): (after: State)
    requires t in s.tasks
    ensures KeepsHistory(s, after) && after.finished == s.finished && after.phase == s.phase
  {
    var task := s.tasks[t];
    if (task.Handling? || task.Marking?) && task.plan.purpose.ForDispatch? then
      Put(Abandon(cfg, s, t), t, Receiving)
    else Abandon(cfg, s, t)
  }

  /** The broker's contract: a live job with the key is reused, else one is created. */
  ghost predicate KeyIsLive(jobs: seq<Job>, key: string) {
    exists i :: 0 <= i < |jobs| && jobs[i].live && jobs[i].Key() == key
  }

  ghost function LandJob(s: State, e: EventEnvelope, trigger: RegisteredTrigger): State {
    if KeyIsLive(s.jobs, SubmissionKey(Identity(e), trigger.name)) then s
    else s.(jobs := s.jobs + [Job(e, trigger, true)],
            facts := s.facts.(created := s.facts.created + [(Identity(e), trigger)]))
  }

  // ------------------------------------------------------------------ steps

  /** A write that fails may still have landed whole: `landed` says so. Memory does not see it before a restart. */
  datatype Step =
    | StartIngest(t: nat, e: EventEnvelope, asynchronous: bool)
    | Append(t: nat)
    | AppendFails(t: nat, landed: bool)
    | Send(t: nat)
    | StartDispatcher(t: nat)
    | Receive(t: nat)
    | Enqueue(t: nat, outcome: EnqueueOutcome)
    | DeadLetter(t: nat, written: bool)
    | Handled(t: nat)
    | MarkCheck(t: nat)
    | MarkJournal(t: nat, written: bool, landed: bool)
    | MarkInsert(t: nat)
    | StartSweep(t: nat, policy: AutoRetention, now: int)
    | SweepLog(t: nat)
    | TrimJournal(t: nat, list: seq<EventId>)
    | ResetSet(t: nat)
    | Prune(cut: ManualRetention)
    | SweepQueue(bound: AutoRetention, at: int)
    | StartReplay(t: nat, events: seq<EventEnvelope>)
    | StartRecovery(t: nat)
    | StartRetry(t: nat)
    | Cancel(t: nat)
    | JobEnds(job: nat)
    | Crash
    | Restart(command: bool)

  predicate Runs(s: State, t: nat) {
    !s.phase.Down? && t in s.tasks
  }

  /** The process takes on new work, and the task number is free. */
  predicate Opens(s: State, t: nat) {
    (s.phase.Serving? || s.phase.Command?) && t !in s.tasks
  }

  /** The environment's promise about ids: an event written under an id already used is that same event. */
  ghost predicate IdNamesEvent(s: State, e: EventEnvelope) {
    forall d :: (d in s.facts.stored || d in s.disk) && d.id == e.id ==> d == e
  }

  ghost predicate Enabled(cfg: Config, s: State, step: Step) {
    match step
    case StartIngest(t, e, _) => Opens(s, t) && Existing(s.log, e).None?
    case Append(t) => Runs(s, t) && s.tasks[t].Ingesting? && IdNamesEvent(s, s.tasks[t].e)
    case AppendFails(t, landed) =>
      Runs(s, t) && s.tasks[t].Ingesting? && (landed ==> IdNamesEvent(s, s.tasks[t].e))
    case Send(t) => Runs(s, t) && s.tasks[t].Sending? && |s.channel| < cfg.capacity
    case StartDispatcher(t) => Opens(s, t)
    case Receive(t) => Runs(s, t) && s.tasks[t].Receiving? && s.channel != []
    case Enqueue(t, _) =>
      && Runs(s, t) && s.tasks[t].Handling? && s.tasks[t].todo != []
      && cfg.Submittable(s.tasks[t].todo[0], s.tasks[t].e) && s.tasks[t].attempt < cfg.attempts
    case DeadLetter(t, _) =>
      && Runs(s, t) && s.tasks[t].Handling? && s.tasks[t].todo != []
      && (!cfg.Submittable(s.tasks[t].todo[0], s.tasks[t].e) || s.tasks[t].attempt >= cfg.attempts)
    case Handled(t) => Runs(s, t) && s.tasks[t].Handling? && s.tasks[t].todo == []
    case MarkCheck(t) => Runs(s, t) && s.tasks[t].Marking? && s.tasks[t].stage.CheckSet?
    case MarkJournal(t, _, _) => Runs(s, t) && s.tasks[t].Marking? && s.tasks[t].stage.WriteJournal?
    case MarkInsert(t) => Runs(s, t) && s.tasks[t].Marking? && s.tasks[t].stage.InsertInSet?
    case StartSweep(t, policy, _) => Opens(s, t) && !policy.IsUnbounded()
    case SweepLog(t) => Runs(s, t) && s.tasks[t].Sweeping?
    case TrimJournal(t, list) => Runs(s, t) && s.tasks[t].Trimming? && Elements(list) == s.tasks[t].ids
    case ResetSet(t) => Runs(s, t) && s.tasks[t].Resetting?
    case Prune(_) => true
    case SweepQueue(_, _) => true
    case StartReplay(t, events) => Opens(s, t) && events != [] && forall e :: e in events ==> e in s.log
    case StartRecovery(t) => s.phase.Starting? && s.tasks.Keys == {}
    case StartRetry(t) => Opens(s, t) && s.queue != []
    case Cancel(t) => Runs(s, t)
    case JobEnds(job) => job < |s.jobs|
    case Crash => !s.phase.Down?
    case Restart(_) => s.phase.Down?
  }

  /** Undelivered events a sweep removes: only a hard bound does that. */
  function BoundedAway(log: seq<EventEnvelope>, kept: seq<EventEnvelope>, snapshot: set<EventId>): set<EventEnvelope> {
    set e | e in log && e !in kept && e.id !in snapshot
  }

  ghost function Apply(cfg: Config, s: State, step: Step): State
    requires Enabled(cfg, s, step)
  {
    match step
    case StartIngest(t, e, asynchronous) => Put(s, t, Ingesting(e, asynchronous))
    case Append(t) =>
      var e := s.tasks[t].e;
      var stored := s.(disk := s.disk + [e], log := s.log + [e], bounded := s.bounded - {e},
                       facts := s.facts.(stored := s.facts.stored + {e}));
      if s.tasks[t].asynchronous then Put(stored, t, Sending(e)).(accepted := s.accepted + {e})
      else Put(stored, t, FirstTask(cfg, [e], ForIngest))
    case AppendFails(t, landed) =>
      var e := s.tasks[t].e;
      End(s, t).(disk := if landed then s.disk + [e] else s.disk)
    case Send(t) =>
      var e := s.tasks[t].e;
      End(s, t).(channel := s.channel + [e], sent := s.sent + [e])
    case StartDispatcher(t) => Put(s, t, Receiving)
    case Receive(t) =>
      Put(s, t, FirstTask(cfg, [s.channel[0]], ForDispatch))
        .(channel := s.channel[1..], received := s.received + [s.channel[0]])
    case Enqueue(t, outcome) =>
      var task := s.tasks[t];
      var landed := if outcome.FailsBefore? then s else LandJob(s, task.e, task.todo[0]);
      if !outcome.Accepts? then Put(landed, t, task.(attempt := task.attempt + 1))
      else
        Put(landed, t, task.(todo := task.todo[1..], attempt := 0))
          .(facts := landed.facts.(answered := s.facts.answered + [(task.e, task.todo[0])]),
            open := s.open - {(task.e, task.todo[0].name)})
    case DeadLetter(t, written) =>
      var task := s.tasks[t];
      var name := task.todo[0].name;
      if !written then Fail(cfg, s, t)
      else
        Put(s, t, task.(todo := task.todo[1..], attempt := 0))
          .(queue := s.queue + [DeadTriggerRecord(task.e, name, "")],
            open := s.open + {(task.e, name)}, dropped := s.dropped - {(task.e, name)},
            facts := s.facts.(dead := s.facts.dead + {(task.e, name)}))
    case Handled(t) =>
      var task := s.tasks[t];
      if task.plan.purpose.Marks() then Put(s, t, Marking(task.e, CheckSet, task.plan))
      else Proceed(cfg, s, t, task.e, task.plan)
    case MarkCheck(t) =>
      var task := s.tasks[t];
      if task.e.id in s.delivered then Proceed(cfg, s, t, task.e, task.plan)
      else Put(s, t, task.(stage := WriteJournal))
    case MarkJournal(t, written, landed) =>
      var longer := s.journal + [s.tasks[t].e.id];
      if written then Put(s, t, s.tasks[t].(stage := InsertInSet)).(journal := longer)
      else Fail(cfg, s, t).(journal := if landed then longer else s.journal)
    case MarkInsert(t) =>
      var task := s.tasks[t];
      Proceed(cfg, s.(delivered := s.delivered + {task.e.id}), t, task.e, task.plan)
    case StartSweep(t, policy, now) => Put(s, t, Sweeping(policy, now, s.delivered))
    case SweepLog(t) =>
      var task := s.tasks[t];
      var kept := Retained(s.log, task.snapshot, task.policy, task.now, cfg.size);
      if |kept| == |s.log| then End(s, t)
      else
        Put(s, t, Trimming(task.snapshot * Ids(kept)))
          .(disk := kept, log := kept, bounded := s.bounded + BoundedAway(s.log, kept, task.snapshot))
    case TrimJournal(t, list) => Put(s, t, Resetting(s.tasks[t].ids)).(journal := list)
    case ResetSet(t) => End(s, t).(delivered := s.tasks[t].ids)
    case Prune(cut) =>
      var kept := cut.Keep(s.log, EventTime());
      if |kept| == |s.log| then s
      else s.(disk := kept, log := kept, bounded := s.bounded + set e | e in s.log && e !in kept)
    case SweepQueue(bound, at) =>
      var kept := RetainedDeadTriggers(s.queue, bound, at, cfg.deadSize);
      s.(queue := kept, dropped := s.dropped + set d | d in s.queue && d !in kept :: (d.event, d.triggerName))
    case StartReplay(t, events) => Put(s, t, FirstTask(cfg, events, ForReplay))
    case StartRecovery(t) =>
      var pending := StoreState(s.log, s.delivered).Undelivered();
      if pending == [] then s.(phase := Serving) else Put(s, t, FirstTask(cfg, pending, ForRecovery))
    case StartRetry(t) =>
      RetriedIsNotEmpty(s.queue);
      Put(s, t, FirstTask(cfg, Retried(s.queue), ForRetry)).(queue := [])
    case Cancel(t) => Abandon(cfg, s, t)
    case JobEnds(job) => s.(jobs := s.jobs[job := s.jobs[job].(live := false)])
    case Crash =>
      s.(phase := Down, log := s.disk, facts := s.facts.(stored := s.facts.stored + Elements(s.disk)),
         bounded := s.bounded - Elements(s.disk), delivered := {}, channel := [], tasks := map[],
         dropped := s.dropped + (set t, p | t in s.tasks && p in Held(cfg, s.tasks[t]) :: p),
         sent := [], received := [], accepted := {}, finished := {}, left := {})
    case Restart(command) =>
      s.(phase := if command then Command else Starting, delivered := Elements(s.journal))
  }

  lemma RetriedIsNotEmpty(records: seq<DeadTriggerRecord>)
    requires records != []
    ensures Retried(records) != []
  {
    FirstSeenCovers(records);
    assert records[0].event.id in RecordIds(records);
  }

  /** A run: from the initial state, each state reached from the one before by an enabled step. */
  ghost predicate Execution(cfg: Config, states: seq<State>, steps: seq<Step>) {
    && |states| == |steps| + 1
    && states[0] == Initial()
    && forall i :: 0 <= i < |steps| ==>
         Enabled(cfg, states[i], steps[i]) && states[i + 1] == Apply(cfg, states[i], steps[i])
  }
}
