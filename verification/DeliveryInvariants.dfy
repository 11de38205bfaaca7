/** What every step of the delivery protocol keeps, and what therefore holds in every state of every run. */
module DeliveryInvariants {
  import opened Base
  import opened Retention
  import opened EventStores
  import opened Registry
  import opened Runtime
  import opened TriggerRuntimes
  import opened Ingest
  import opened Delivery

  // ------------------------------------------------------------------ being dealt with

  /** The broker accepted this event's submission for this registration, and a job of that identity and registration
      was created; or the event's failure was written to the queue. */
  ghost predicate IsCovered(f: Facts, e: EventEnvelope, r: RegisteredTrigger) {
    ((e, r) in f.answered && (Identity(e), r) in f.created) || (e, r.name) in f.dead
  }

  /** Every trigger that matches the event is covered. */
  ghost predicate IsDone(cfg: Config, f: Facts, e: EventEnvelope) {
    forall r :: r in cfg.Matching(e) ==> IsCovered(f, e, r)
  }

  /** Every id of the set is the id of a stored event that is done. */
  ghost predicate Justified(cfg: Config, f: Facts, ids: set<EventId>) {
    forall id :: id in ids ==> exists d :: d in f.stored && d.id == id && IsDone(cfg, f, d)
  }

  ghost predicate AllStored(f: Facts, events: seq<EventEnvelope>) {
    forall e :: e in events ==> e in f.stored
  }

  ghost predicate PlanOk(f: Facts, plan: Plan) {
    AllStored(f, plan.rest) && (plan.purpose.ForDispatch? ==> plan.rest == [])
  }

  ghost predicate TaskOk(cfg: Config, f: Facts, task: Task) {
    match task
    case Ingesting(_, _) => true
    case Sending(e) => e in f.stored
    case Receiving => true
    case Handling(e, todo, _, plan) =>
      && e in f.stored && PlanOk(f, plan)
      && (forall r :: r in todo ==> r in cfg.Matching(e))
      && forall r :: r in cfg.Matching(e) ==> r in todo || IsCovered(f, e, r)
    case Marking(e, _, plan) => e in f.stored && PlanOk(f, plan) && plan.purpose.Marks() && IsDone(cfg, f, e)
    case Sweeping(_, _, snapshot) => Justified(cfg, f, snapshot)
    case Trimming(ids) => Justified(cfg, f, ids)
    case Resetting(ids) => Justified(cfg, f, ids)
  }

  ghost predicate IdsNameEvents(events: set<EventEnvelope>) {
    forall d, e :: d in events && e in events && d.id == e.id ==> d == e
  }

  /** Everything stored or on disk. */
  ghost function Written(s: State): set<EventEnvelope> {
    s.facts.stored + Elements(s.disk)
  }

  ghost predicate JobsAreOfStored(f: Facts, jobs: seq<Job>) {
    forall i :: 0 <= i < |jobs| ==> jobs[i].event in f.stored
  }

  ghost predicate TasksOk(cfg: Config, s: State) {
    forall t :: t in s.tasks ==> TaskOk(cfg, s.facts, s.tasks[t])
  }

  /** The invariant behind delivery: only ids of finished events are ever marked, and a stored event is in
      the log, or bounded away, or done. */
  ghost predicate StoreInv(cfg: Config, s: State) {
    && IdsNameEvents(Written(s))
    && AllStored(s.facts, s.log) && AllStored(s.facts, s.channel) && JobsAreOfStored(s.facts, s.jobs)
    && (forall e :: e in s.log ==> e in s.disk)
    && (forall d :: d in s.queue ==> d.event in s.facts.stored)
    && (forall e :: e in s.facts.stored ==> e in s.log || e in s.bounded || IsDone(cfg, s.facts, e))
    && Justified(cfg, s.facts, Elements(s.journal))
    && Justified(cfg, s.facts, s.delivered)
    && TasksOk(cfg, s)
  }

  ghost predicate Leq(f: Facts, g: Facts) {
    f.stored <= g.stored && f.created <= g.created && f.answered <= g.answered && f.dead <= g.dead
  }

  /** Facts only accumulate, and everything above survives that. */
  lemma FactsGrow(cfg: Config, f: Facts, g: Facts)
    requires Leq(f, g)
    ensures forall e :: IsDone(cfg, f, e) ==> IsDone(cfg, g, e)
    ensures forall ids :: Justified(cfg, f, ids) ==> Justified(cfg, g, ids)
    ensures forall events :: AllStored(f, events) ==> AllStored(g, events)
    ensures forall task :: TaskOk(cfg, f, task) ==> TaskOk(cfg, g, task)
  {
    forall ids | Justified(cfg, f, ids)
      ensures Justified(cfg, g, ids)
    {
      forall id | id in ids
        ensures exists d :: d in g.stored && d.id == id && IsDone(cfg, g, d)
      {
        var d :| d in f.stored && d.id == id && IsDone(cfg, f, d);
        assert IsDone(cfg, g, d);
      }
    }
  }

  /** A state whose facts grew, whose disk and set stayed justified, and whose tasks are old ones or good. */
  ghost predicate Extends(cfg: Config, s: State, after: State) {
    && Leq(s.facts, after.facts)
    && forall t :: t in after.tasks ==>
         (t in s.tasks && after.tasks[t] == s.tasks[t]) || TaskOk(cfg, after.facts, after.tasks[t])
  }

  lemma TasksStayOk(cfg: Config, s: State, after: State)
    requires TasksOk(cfg, s) && Extends(cfg, s, after)
    ensures TasksOk(cfg, after)
  {
    FactsGrow(cfg, s.facts, after.facts);
  }

  /** Steps that leave log, journal, set, channel and queue alone. */
  lemma StoreInvByTasks(cfg: Config, s: State, after: State)
    requires StoreInv(cfg, s) && Extends(cfg, s, after)
    requires after.facts.stored == s.facts.stored
    requires after.disk == s.disk && after.log == s.log && after.journal == s.journal && after.delivered == s.delivered
    requires JobsAreOfStored(s.facts, after.jobs)
    requires after.channel == s.channel && after.bounded == s.bounded
    requires forall d :: d in after.queue ==> d.event in s.facts.stored
    ensures StoreInv(cfg, after)
  {
    FactsGrow(cfg, s.facts, after.facts);
    TasksStayOk(cfg, s, after);
  }

  lemma FirstTaskOk(cfg: Config, f: Facts, events: seq<EventEnvelope>, purpose: Purpose)
    requires events != [] && AllStored(f, events) && (purpose.ForDispatch? ==> |events| == 1)
    ensures TaskOk(cfg, f, FirstTask(cfg, events, purpose))
  {
    assert events[0] in events;
    assert forall e :: e in events[1..] ==> e in events;
  }

  /** Going on to the next planned event. */
  lemma ProceedKeepsStore(cfg: Config, s: State, t: nat, e: EventEnvelope, plan: Plan)
    requires StoreInv(cfg, s) && PlanOk(s.facts, plan)
    ensures StoreInv(cfg, Proceed(cfg, s, t, e, plan))
  {
    if plan.rest != [] {
      FirstTaskOk(cfg, s.facts, plan.rest, plan.purpose);
    }
    StoreInvByTasks(cfg, s, Proceed(cfg, s, t, e, plan));
  }

  /** The first trigger still to do has been covered, or is to be tried again. */
  lemma HandlingGoesOn(cfg: Config, f: Facts, g: Facts, task: Task)
    requires Leq(f, g) && task.Handling? && task.todo != [] && TaskOk(cfg, f, task)
    ensures forall attempt :: TaskOk(cfg, g, task.(attempt := attempt))
    ensures IsCovered(g, task.e, task.todo[0]) ==> TaskOk(cfg, g, task.(todo := task.todo[1..], attempt := 0))
  {
  }

  lemma LandKeepsStore(cfg: Config, s: State, e: EventEnvelope, r: RegisteredTrigger)
    requires GoodConfig(cfg) && StoreInv(cfg, s) && BrokerInv(cfg, s) && r in cfg.registrations && e in s.facts.stored
    ensures StoreInv(cfg, LandJob(s, e, r)) && LandJob(s, e, r).tasks == s.tasks
    ensures (Identity(e), r) in LandJob(s, e, r).facts.created
  {
    LandCreates(cfg, s, e, r);
    StoreInvByTasks(cfg, s, LandJob(s, e, r));
  }

  /** The submission is counted as the event's own when it was accepted. */
  lemma AcceptedKeepsStore(cfg: Config, s: State, t: nat, task: Task)
    requires StoreInv(cfg, s) && t in s.tasks && task == s.tasks[t] && task.Handling? && task.todo != []
    requires (Identity(task.e), task.todo[0]) in s.facts.created
    ensures
      var facts := s.facts.(answered := s.facts.answered + [(task.e, task.todo[0])]);
      StoreInv(cfg, Put(s, t, task.(todo := task.todo[1..], attempt := 0))
                      .(facts := facts, open := s.open - {(task.e, task.todo[0].name)}))
  {
    var facts := s.facts.(answered := s.facts.answered + [(task.e, task.todo[0])]);
    assert TaskOk(cfg, s.facts, task);
    HandlingGoesOn(cfg, s.facts, facts, task);
    assert (task.e, task.todo[0]) in facts.answered;
    StoreInvByTasks(cfg, s, Put(s, t, task.(todo := task.todo[1..], attempt := 0))
                              .(facts := facts, open := s.open - {(task.e, task.todo[0].name)}));
  }

  lemma RetriedKeepsStore(cfg: Config, s: State, t: nat, task: Task)
    requires StoreInv(cfg, s) && t in s.tasks && task == s.tasks[t] && task.Handling? && task.todo != []
    ensures StoreInv(cfg, Put(s, t, task.(attempt := task.attempt + 1)))
  {
    assert TaskOk(cfg, s.facts, task);
    HandlingGoesOn(cfg, s.facts, s.facts, task);
    StoreInvByTasks(cfg, s, Put(s, t, task.(attempt := task.attempt + 1)));
  }

  /** A call to the broker, as one change after the other. */
  lemma EnqueueIs(cfg: Config, s: State, t: nat, outcome: EnqueueOutcome)
    requires Enabled(cfg, s, Enqueue(t, outcome))
    ensures
      var task := s.tasks[t];
      var landed := if outcome.FailsBefore? then s else LandJob(s, task.e, task.todo[0]);
      Apply(cfg, s, Enqueue(t, outcome))
      == if !outcome.Accepts? then Put(landed, t, task.(attempt := task.attempt + 1))
         else Put(landed, t, task.(todo := task.todo[1..], attempt := 0))
                .(facts := landed.facts.(answered := landed.facts.answered + [(task.e, task.todo[0])]),
                  open := landed.open - {(task.e, task.todo[0].name)})
  {
  }

  lemma EnqueueKeepsStore(cfg: Config, s: State, step: Step)
    requires GoodConfig(cfg) && StoreInv(cfg, s) && BrokerInv(cfg, s) && Enabled(cfg, s, step) && step.Enqueue?
    ensures StoreInv(cfg, Apply(cfg, s, step))
  {
    EnqueueIs(cfg, s, step.t, step.outcome);
    StoredTask(cfg, s, step.t);
    hide StoreInv, BrokerInv, GoodConfig, LandJob, Apply, Enabled;
    var task := s.tasks[step.t];
    if step.outcome.FailsBefore? {
      RetriedKeepsStore(cfg, s, step.t, task);
    } else {
      var landed := LandJob(s, task.e, task.todo[0]);
      LandKeepsStore(cfg, s, task.e, task.todo[0]);
      if step.outcome.Accepts? {
        AcceptedKeepsStore(cfg, landed, step.t, task);
      } else {
        RetriedKeepsStore(cfg, landed, step.t, task);
      }
    }
  }

  lemma StoredTask(cfg: Config, s: State, t: nat)
    requires StoreInv(cfg, s) && t in s.tasks && s.tasks[t].Handling? && s.tasks[t].todo != []
    ensures s.tasks[t].e in s.facts.stored && s.tasks[t].todo[0] in cfg.registrations
  {
    assert TaskOk(cfg, s.facts, s.tasks[t]);
    assert s.tasks[t].todo[0] in s.tasks[t].todo;
    SelectedIsRegistered(cfg, s.tasks[t].e, s.tasks[t].todo[0]);
  }

  lemma DeadLetterKeepsStore(cfg: Config, s: State, step: Step)
    requires StoreInv(cfg, s) && Enabled(cfg, s, step) && step.DeadLetter?
    ensures StoreInv(cfg, Apply(cfg, s, step))
  {
    hide Held, Accepted, BoundedAway, Retained, RetainedDeadTriggers, Retried, Proceed, FirstTask, Elements;
    var t := step.t;
    var task := s.tasks[t];
    assert TaskOk(cfg, s.facts, task);
    HandlingGoesOn(cfg, s.facts, s.facts.(dead := s.facts.dead + {(task.e, task.todo[0].name)}), task);
    StoreInvByTasks(cfg, s, Apply(cfg, s, step));
  }

  lemma AppendKeepsStore(cfg: Config, s: State, step: Step)
    requires StoreInv(cfg, s) && Enabled(cfg, s, step) && step.Append?
    ensures StoreInv(cfg, Apply(cfg, s, step))
  {
    hide Held, Accepted, BoundedAway, Retained, RetainedDeadTriggers, Retried, Proceed, IsDone;
    var t := step.t;
    var after := Apply(cfg, s, step);
    FactsGrow(cfg, s.facts, after.facts);
    FirstTaskOk(cfg, after.facts, [s.tasks[t].e], ForIngest);
    TasksStayOk(cfg, s, after);
  }

  lemma ChannelKeepsStore(cfg: Config, s: State, step: Step)
    requires StoreInv(cfg, s) && Enabled(cfg, s, step) && (step.Send? || step.Receive?)
    ensures StoreInv(cfg, Apply(cfg, s, step))
  {
    hide Held, Accepted;
    var after := Apply(cfg, s, step);
    if step.Send? {
      assert TaskOk(cfg, s.facts, s.tasks[step.t]);
    } else {
      FirstTaskOk(cfg, s.facts, [s.channel[0]], ForDispatch);
    }
    TasksStayOk(cfg, s, after);
  }

  /** One more id in the journal, of an event that is done. */
  lemma JournalledKeepsStore(cfg: Config, s: State, e: EventEnvelope)
    requires StoreInv(cfg, s) && e in s.facts.stored && IsDone(cfg, s.facts, e)
    ensures StoreInv(cfg, s.(journal := s.journal + [e.id]))
  {
    assert Elements(s.journal + [e.id]) == Elements(s.journal) + {e.id};
  }

  lemma FailedMarkKeepsStore(cfg: Config, s: State, t: nat)
    requires StoreInv(cfg, s) && t in s.tasks
    ensures StoreInv(cfg, Fail(cfg, s, t))
  {
    hide Held, Accepted;
    StoreInvByTasks(cfg, s, Fail(cfg, s, t));
  }

  lemma MarkKeepsStore(cfg: Config, s: State, step: Step)
    requires StoreInv(cfg, s) && Enabled(cfg, s, step)
    requires step.MarkJournal? || step.MarkInsert?
    ensures StoreInv(cfg, Apply(cfg, s, step))
  {
    hide Held, Accepted, BoundedAway, Retained, RetainedDeadTriggers, Retried, IsDone;
    var task := s.tasks[step.t];
    assert TaskOk(cfg, s.facts, task);
    if step.MarkInsert? {
      ProceedKeepsStore(cfg, s.(delivered := s.delivered + {task.e.id}), step.t, task.e, task.plan);
    } else if step.written {
      StoreInvByTasks(cfg, s, Put(s, step.t, task.(stage := InsertInSet)));
      JournalledKeepsStore(cfg, Put(s, step.t, task.(stage := InsertInSet)), task.e);
    } else {
      FailedMarkKeepsStore(cfg, s, step.t);
      if step.landed { JournalledKeepsStore(cfg, Fail(cfg, s, step.t), task.e); }
    }
  }

  lemma HandledKeepsStore(cfg: Config, s: State, step: Step)
    requires StoreInv(cfg, s) && Enabled(cfg, s, step)
    requires step.Handled? || step.MarkCheck?
    ensures StoreInv(cfg, Apply(cfg, s, step))
  {
    hide Held, Accepted;
    var task := s.tasks[step.t];
    assert TaskOk(cfg, s.facts, task);
    if (step.Handled? && task.plan.purpose.Marks()) || (step.MarkCheck? && task.e.id !in s.delivered) {
      StoreInvByTasks(cfg, s, Apply(cfg, s, step));
    } else {
      ProceedKeepsStore(cfg, s, step.t, task.e, task.plan);
    }
  }

  lemma SweepKeepsStore(cfg: Config, s: State, step: Step)
    requires StoreInv(cfg, s) && Enabled(cfg, s, step) && (step.StartSweep? || step.TrimJournal? || step.ResetSet?)
    ensures StoreInv(cfg, Apply(cfg, s, step))
  {
    hide Held, Accepted, BoundedAway, Retained, RetainedDeadTriggers, Retried, FirstTask, Proceed, IsDone, TaskOk;
    var after := Apply(cfg, s, step);
    if step.StartSweep? {
      SnapshotTaskOk(cfg, s.facts, Sweeping(step.policy, step.now, s.delivered));
      StoreInvByTasks(cfg, s, after);
    } else {
      assert TaskOk(cfg, s.facts, s.tasks[step.t]);
      SnapshotTaskOk(cfg, s.facts, Trimming(s.tasks[step.t].ids));
      SnapshotTaskOk(cfg, s.facts, Resetting(s.tasks[step.t].ids));
      TasksStayOk(cfg, s, after);
    }
  }

  lemma SnapshotTaskOk(cfg: Config, f: Facts, task: Task)
    ensures task.Sweeping? ==> (TaskOk(cfg, f, task) <==> Justified(cfg, f, task.snapshot))
    ensures task.Trimming? || task.Resetting? ==> (TaskOk(cfg, f, task) <==> Justified(cfg, f, task.ids))
  {
  }

  /** The log is rewritten; a stored event that goes was bounded away or is done. */
  lemma SweepLogKeepsStore(cfg: Config, s: State, step: Step)
    requires StoreInv(cfg, s) && Enabled(cfg, s, step) && step.SweepLog?
    ensures StoreInv(cfg, Apply(cfg, s, step))
  {
    hide Held, Accepted, Retained, RetainedDeadTriggers, Retried, FirstTask, Proceed, IsDone;
    var after := Apply(cfg, s, step);
    var task := s.tasks[step.t];
    assert TaskOk(cfg, s.facts, task);
    var kept := Retained(s.log, task.snapshot, task.policy, task.now, cfg.size);
    RetainedMembers(s.log, task.snapshot, task.policy, task.now, cfg.size);
    if |kept| == |s.log| {
      StoreInvByTasks(cfg, s, after);
    } else {
      assert forall e :: e in kept ==> e in s.log;
      forall e | e in s.facts.stored
        ensures e in kept || e in after.bounded || IsDone(cfg, s.facts, e)
      {
        SnapshotIsDone(cfg, s.facts, task.snapshot, e);
      }
      TasksStayOk(cfg, s, after);
    }
  }

  /** An event whose id is in a justified set is itself done. */
  lemma SnapshotIsDone(cfg: Config, f: Facts, ids: set<EventId>, e: EventEnvelope)
    requires IdsNameEvents(f.stored) && Justified(cfg, f, ids) && e in f.stored
    ensures e.id in ids ==> IsDone(cfg, f, e)
  {
  }

  lemma PruneKeepsStore(cfg: Config, s: State, step: Step)
    requires StoreInv(cfg, s) && step.Prune?
    ensures StoreInv(cfg, Apply(cfg, s, step))
  {
    hide Held, Accepted;
    var cut := step.cut;
    var kept := cut.Keep(s.log, EventTime());
    forall e | e in kept
      ensures e in s.log
    {
      if cut.OlderThan? { FilterMember(AtOrAfter(cut.cutoff, EventTime()), s.log, e); }
    }
    TasksStayOk(cfg, s, Apply(cfg, s, step));
  }

  lemma StartKeepsStore(cfg: Config, s: State, step: Step)
    requires StoreInv(cfg, s) && Enabled(cfg, s, step) && (step.StartReplay? || step.StartRecovery?)
    ensures StoreInv(cfg, Apply(cfg, s, step))
  {
    hide Held, Accepted, BoundedAway, Retained, RetainedDeadTriggers, Retried, Proceed, Fail, IsDone;
    if step.StartReplay? {
      FirstTaskOk(cfg, s.facts, step.events, ForReplay);
    } else {
      var pending := StoreState(s.log, s.delivered).Undelivered();
      forall e | e in pending
        ensures e in s.facts.stored
      {
        FilterMember(NotIn(s.delivered), s.log, e);
      }
      if pending != [] { FirstTaskOk(cfg, s.facts, pending, ForRecovery); }
    }
    StoreInvByTasks(cfg, s, Apply(cfg, s, step));
  }

  lemma RetryKeepsStore(cfg: Config, s: State, step: Step)
    requires StoreInv(cfg, s) && Enabled(cfg, s, step) && (step.StartRetry? || step.SweepQueue?)
    ensures StoreInv(cfg, Apply(cfg, s, step))
  {
    hide Held, Accepted;
    var after := Apply(cfg, s, step);
    if step.StartRetry? {
      RetriedIsNotEmpty(s.queue);
      forall e | e in Retried(s.queue)
        ensures e in s.facts.stored
      {
        RetriedEventIsQueued(s.queue, e);
      }
      FirstTaskOk(cfg, s.facts, Retried(s.queue), ForRetry);
    } else {
      forall d | d in after.queue
        ensures d in s.queue
      {
        QueueKeptIsQueued(cfg, s.queue, step.bound, step.at, d);
      }
    }
    StoreInvByTasks(cfg, s, after);
  }

  lemma RetriedEventIsQueued(records: seq<DeadTriggerRecord>, e: EventEnvelope)
    requires e in Retried(records)
    ensures exists d :: d in records && d.event == e
  {
    FirstSeenCovers(records);
    var i :| 0 <= i < |Retried(records)| && Retried(records)[i] == e;
    LastEventIsQueued(records, FirstSeen(records)[i]);
  }

  lemma {:induction false} LastEventIsQueued(records: seq<DeadTriggerRecord>, id: EventId)
    requires id in RecordIds(records)
    ensures exists d :: d in records && d.event == LastEvent(records, id) && d.event.id == id
  {
    var last := records[|records| - 1];
    if last.event.id == id {
      assert last in records;
    } else {
      var prefix := records[..|records| - 1];
      var d :| d in records && d.event.id == id;
      assert d in prefix;
      LastEventIsQueued(prefix, id);
      var found :| found in prefix && found.event == LastEvent(prefix, id) && found.event.id == id;
      assert found in records;
    }
  }

  lemma QueueKeptIsQueued(cfg: Config, queue: seq<DeadTriggerRecord>, bound: AutoRetention, at: int,
      d: DeadTriggerRecord)
    requires d in RetainedDeadTriggers(queue, bound, at, cfg.deadSize)
    ensures d in queue
  {
    var young := Filter(WithinAge(bound, at), queue);
    SizeBoundIsLongestFit(cfg.deadSize, bound, young);
    FilterMember(WithinAge(bound, at), queue, d);
  }

  lemma StoreInvKept(cfg: Config, s: State, step: Step)
    requires GoodConfig(cfg) && StoreInv(cfg, s) && BrokerInv(cfg, s) && Enabled(cfg, s, step)
    ensures StoreInv(cfg, Apply(cfg, s, step))
  {
    hide StoreInv, BrokerInv, Enabled, Apply;
    match step
    case Append(t) => AppendKeepsStore(cfg, s, step);
    case AppendFails(_, _) => AppendFailsKeepsStore(cfg, s, step);
    case Crash => CrashKeepsStore(cfg, s, step);
    case Send(_) => ChannelKeepsStore(cfg, s, step);
    case Receive(_) => ChannelKeepsStore(cfg, s, step);
    case Enqueue(t, outcome) => EnqueueKeepsStore(cfg, s, step);
    case DeadLetter(t, written) => DeadLetterKeepsStore(cfg, s, step);
    case Handled(_) => HandledKeepsStore(cfg, s, step);
    case MarkCheck(_) => HandledKeepsStore(cfg, s, step);
    case MarkJournal(_, _, _) => MarkKeepsStore(cfg, s, step);
    case MarkInsert(_) => MarkKeepsStore(cfg, s, step);
    case StartSweep(_, _, _) => SweepKeepsStore(cfg, s, step);
    case SweepLog(_) => SweepLogKeepsStore(cfg, s, step);
    case TrimJournal(_, _) => SweepKeepsStore(cfg, s, step);
    case ResetSet(_) => SweepKeepsStore(cfg, s, step);
    case Prune(cut) => PruneKeepsStore(cfg, s, step);
    case SweepQueue(_, _) => RetryKeepsStore(cfg, s, step);
    case StartReplay(_, _) => StartKeepsStore(cfg, s, step);
    case StartRecovery(_) => StartKeepsStore(cfg, s, step);
    case StartRetry(_) => RetryKeepsStore(cfg, s, step);
    case _ => OtherStepsKeepStore(cfg, s, step);
  }

  /** A line that landed although its append failed is on disk only. */
  lemma LandedKeepsStore(cfg: Config, s: State, e: EventEnvelope)
    requires StoreInv(cfg, s) && IdNamesEvent(s, e)
    ensures StoreInv(cfg, s.(disk := s.disk + [e]))
  {
    var after := s.(disk := s.disk + [e]);
    assert Written(after) == Written(s) + {e};
  }

  lemma AppendFailsKeepsStore(cfg: Config, s: State, step: Step)
    requires StoreInv(cfg, s) && Enabled(cfg, s, step) && step.AppendFails?
    ensures StoreInv(cfg, Apply(cfg, s, step))
  {
    StoreInvByTasks(cfg, s, End(s, step.t));
    if step.landed { LandedKeepsStore(cfg, End(s, step.t), s.tasks[step.t].e); }
  }

  /** After a crash, memory is what the disk holds, and everything on disk counts as stored. */
  lemma CrashKeepsStore(cfg: Config, s: State, step: Step)
    requires StoreInv(cfg, s) && Enabled(cfg, s, step) && step.Crash?
    ensures StoreInv(cfg, Apply(cfg, s, step))
  {
    hide Held;
    var after := Apply(cfg, s, step);
    FactsGrow(cfg, s.facts, after.facts);
    assert Written(after) == Written(s);
  }

  lemma OtherStepsKeepStore(cfg: Config, s: State, step: Step)
    requires StoreInv(cfg, s) && Enabled(cfg, s, step)
    requires step.StartIngest? || step.StartDispatcher? || step.Cancel? || step.JobEnds? || step.Restart?
    ensures StoreInv(cfg, Apply(cfg, s, step))
  {
    hide Held, Accepted, BoundedAway, Retained, RetainedDeadTriggers, Retried, Proceed, FirstTask, IsDone;
    if !step.Restart? {
      StoreInvByTasks(cfg, s, Apply(cfg, s, step));
    }
  }

  // ------------------------------------------------------------------ the broker

  ghost predicate HasJob(jobs: seq<Job>, identity: string, r: RegisteredTrigger) {
    exists i :: 0 <= i < |jobs| && Identity(jobs[i].event) == identity && jobs[i].trigger == r
  }

  ghost predicate JobsOk(registrations: seq<RegisteredTrigger>, jobs: seq<Job>,
      created: seq<(string, RegisteredTrigger)>)
  {
    && (forall i :: 0 <= i < |jobs| ==> jobs[i].trigger in registrations && jobs[i].Pair() in created)
    && forall p :: p in created ==> HasJob(jobs, p.0, p.1)
  }

  /** Jobs are of registered triggers, and a pair is recorded as created exactly when some job was created for that
      very identity and registration. */
  ghost predicate BrokerInv(cfg: Config, s: State) {
    JobsOk(cfg.registrations, s.jobs, s.facts.created)
  }

  lemma SelectedIsRegistered(cfg: Config, e: EventEnvelope, r: RegisteredTrigger)
    requires r in cfg.Matching(e)
    ensures r in cfg.registrations
  {
    FilterMember(Selects(cfg.read, e), cfg.registrations, r);
  }

  /** Because keys tell registrations apart, a submission that the broker took to be a duplicate really has a job of
      its own identity and registration. */
  lemma LandCreates(cfg: Config, s: State, e: EventEnvelope, r: RegisteredTrigger)
    requires GoodConfig(cfg) && BrokerInv(cfg, s) && r in cfg.registrations
    ensures Leq(s.facts, LandJob(s, e, r).facts)
    ensures (Identity(e), r) in LandJob(s, e, r).facts.created
    ensures BrokerInv(cfg, LandJob(s, e, r))
  {
    var identity := Identity(e);
    if KeyIsLive(s.jobs, SubmissionKey(identity, r.name)) {
      var i :| 0 <= i < |s.jobs| && s.jobs[i].live && s.jobs[i].Key() == SubmissionKey(identity, r.name);
      OneOwner(cfg.registrations, s.jobs[i].trigger, Identity(s.jobs[i].event), r, identity);
      assert s.jobs[i].Pair() == (identity, r);
    } else {
      NewJobOk(cfg.registrations, s.jobs, s.facts.created, Job(e, r, true));
    }
  }

  lemma NewJobOk(registrations: seq<RegisteredTrigger>, jobs: seq<Job>, created: seq<(string, RegisteredTrigger)>,
      job: Job)
    requires JobsOk(registrations, jobs, created) && job.trigger in registrations
    ensures JobsOk(registrations, jobs + [job], created + [job.Pair()])
  {
    var after := jobs + [job];
    assert after[|jobs|] == job;
    forall p | p in created + [job.Pair()]
      ensures HasJob(after, p.0, p.1)
    {
      if p in created {
        var i :| 0 <= i < |jobs| && Identity(jobs[i].event) == p.0 && jobs[i].trigger == p.1;
        assert after[i] == jobs[i];
      }
    }
  }

  lemma EndedJobOk(registrations: seq<RegisteredTrigger>, jobs: seq<Job>, created: seq<(string, RegisteredTrigger)>,
      job: nat)
    requires JobsOk(registrations, jobs, created) && job < |jobs|
    ensures JobsOk(registrations, jobs[job := jobs[job].(live := false)], created)
  {
    var after := jobs[job := jobs[job].(live := false)];
    forall p | p in created
      ensures HasJob(after, p.0, p.1)
    {
      var i :| 0 <= i < |jobs| && Identity(jobs[i].event) == p.0 && jobs[i].trigger == p.1;
      assert Identity(after[i].event) == p.0 && after[i].trigger == p.1;
    }
  }

  lemma BrokerInvKept(cfg: Config, s: State, step: Step)
    requires GoodConfig(cfg) && StoreInv(cfg, s) && BrokerInv(cfg, s) && Enabled(cfg, s, step)
    ensures BrokerInv(cfg, Apply(cfg, s, step))
  {
    if step.Enqueue? {
      var task := s.tasks[step.t];
      assert TaskOk(cfg, s.facts, task);
      assert task.todo[0] in task.todo;
      SelectedIsRegistered(cfg, task.e, task.todo[0]);
      LandCreates(cfg, s, task.e, task.todo[0]);
    } else if step.JobEnds? {
      EndedJobOk(cfg.registrations, s.jobs, s.facts.created, step.job);
    } else {
      JobsUntouched(cfg, s, step);
    }
  }

  lemma JobsUntouched(cfg: Config, s: State, step: Step)
    requires Enabled(cfg, s, step) && !step.Enqueue? && !step.JobEnds?
    ensures Apply(cfg, s, step).jobs == s.jobs && Apply(cfg, s, step).facts.created == s.facts.created
  {
    hide Held, Accepted, FirstTask, BoundedAway, Retained, RetainedDeadTriggers, Retried, Elements, Proceed, Fail;
  }

  // ------------------------------------------------------------------ live jobs

  ghost predicate OneLive(jobs: seq<Job>) {
    forall i, j :: 0 <= i < j < |jobs| && jobs[i].live && jobs[j].live ==> jobs[i].Key() != jobs[j].Key()
  }

  /** Whatever the names, no step gives a key a second live job. */
  lemma OneLiveKept(cfg: Config, s: State, step: Step)
    requires OneLive(s.jobs) && Enabled(cfg, s, step)
    ensures OneLive(Apply(cfg, s, step).jobs)
  {
    if !step.Enqueue? && !step.JobEnds? {
      JobsUntouched(cfg, s, step);
    }
  }
}
