/** Two conservation laws of the delivery protocol: of recorded failures, and of asynchronously accepted events. */
module DeliveryAccounting {
  import opened Base
  import opened Retention
  import opened EventStores
  import opened Registry
  import opened Runtime
  import opened TriggerRuntimes
  import opened Delivery
  import opened DeliveryInvariants

  // ------------------------------------------------------------------ recorded failures

  ghost predicate IsHeld(cfg: Config, tasks: map<nat, Task>, p: (EventEnvelope, string)) {
    exists t :: t in tasks && p in Held(cfg, tasks[t])
  }

  /** Where an open failure can be: it is queued, a retry pass holds it, or it was dropped by an interrupted pass or a
      hard bound on the queue. */
  ghost predicate Accounted(cfg: Config, s: State, p: (EventEnvelope, string)) {
    IsQueued(s.queue, p.0, p.1) || IsHeld(cfg, s.tasks, p) || p in s.dropped
  }

  ghost predicate MatchesName(cfg: Config, e: EventEnvelope, name: string) {
    exists r :: r in cfg.Matching(e) && r.name == name
  }

  ghost predicate QueueInv(cfg: Config, s: State) {
    forall p :: p in s.open ==> MatchesName(cfg, p.0, p.1) && Accounted(cfg, s, p)
  }

  /** Every failure still open that was accounted for stays so, if what task `t` held does. */
  ghost predicate KeepsAccount(cfg: Config, s: State, after: State, t: nat) {
    && (forall p :: p in after.open && p in s.dropped ==> Accounted(cfg, after, p))
    && (forall d :: d in s.queue ==> d in after.queue)
    && (forall u :: u in s.tasks && u != t ==> u in after.tasks && after.tasks[u] == s.tasks[u])
    && (t in s.tasks ==> forall p :: p in after.open && p in Held(cfg, s.tasks[t]) ==> Accounted(cfg, after, p))
  }

  lemma AccountKept(cfg: Config, s: State, after: State, t: nat, p: (EventEnvelope, string))
    requires KeepsAccount(cfg, s, after, t) && Accounted(cfg, s, p) && p in after.open
    ensures Accounted(cfg, after, p)
  {
    if IsQueued(s.queue, p.0, p.1) {
      var d :| d in s.queue && d.event == p.0 && d.triggerName == p.1;
      assert d in after.queue;
    } else if IsHeld(cfg, s.tasks, p) {
      var u :| u in s.tasks && p in Held(cfg, s.tasks[u]);
      if u != t {
        assert u in after.tasks && p in Held(cfg, after.tasks[u]);
      }
    }
  }

  lemma QueueInvByTask(cfg: Config, s: State, after: State, t: nat)
    requires QueueInv(cfg, s) && KeepsAccount(cfg, s, after, t) && after.open <= s.open
    ensures QueueInv(cfg, after)
  {
    forall p | p in after.open
      ensures Accounted(cfg, after, p)
    {
      AccountKept(cfg, s, after, t, p);
    }
  }

  /** A retry over events holds every failure of theirs. */
  lemma FirstTaskHolds(cfg: Config, events: seq<EventEnvelope>, e: EventEnvelope, name: string)
    requires e in events && MatchesName(cfg, e, name)
    ensures (e, name) in Held(cfg, FirstTask(cfg, events, ForRetry))
  {
    var r :| r in cfg.Matching(e) && r.name == name;
    if e != events[0] {
      assert e in events[1..];
    }
  }

  lemma FirstTaskHoldsRest(cfg: Config, task: Task)
    requires task.Handling? && task.todo == [] && task.plan.purpose.ForRetry? && task.plan.rest != []
    ensures Held(cfg, task) <= Held(cfg, FirstTask(cfg, task.plan.rest, ForRetry))
  {
    forall p | p in Held(cfg, task)
      ensures p in Held(cfg, FirstTask(cfg, task.plan.rest, ForRetry))
    {
      var d, r :| d in task.plan.rest && r in cfg.Matching(d) && p == (d, r.name);
      FirstTaskHolds(cfg, task.plan.rest, d, r.name);
    }
  }

  lemma HandledKeepsQueue(cfg: Config, s: State, step: Step)
    requires QueueInv(cfg, s) && Enabled(cfg, s, step) && step.Handled?
    ensures QueueInv(cfg, Apply(cfg, s, step))
  {
    hide Accepted, BoundedAway, Retained, Elements, IsDone;
    var t := step.t;
    var after, task := Apply(cfg, s, step), s.tasks[t];
    if task.plan.purpose.ForRetry? && task.plan.rest != [] {
      FirstTaskHoldsRest(cfg, task);
      assert t in after.tasks && after.tasks[t] == FirstTask(cfg, task.plan.rest, ForRetry);
    }
    QueueInvByTask(cfg, s, after, t);
  }

  /** What a task still holds once the first trigger to do is dealt with. */
  lemma HeldShrinks(cfg: Config, task: Task, p: (EventEnvelope, string))
    requires task.Handling? && task.todo != [] && p in Held(cfg, task)
    ensures forall attempt :: p in Held(cfg, task.(attempt := attempt))
    ensures p == (task.e, task.todo[0].name) || p in Held(cfg, task.(todo := task.todo[1..], attempt := 0))
  {
  }

  lemma EnqueueKeepsQueue(cfg: Config, s: State, step: Step)
    requires QueueInv(cfg, s) && Enabled(cfg, s, step) && step.Enqueue?
    ensures QueueInv(cfg, Apply(cfg, s, step))
  {
    hide Accepted, IsDone;
    var t := step.t;
    var after, task := Apply(cfg, s, step), s.tasks[t];
    forall p | p in after.open && p in Held(cfg, task)
      ensures Accounted(cfg, after, p)
    {
      HeldShrinks(cfg, task, p);
      assert t in after.tasks;
    }
    QueueInvByTask(cfg, s, after, t);
  }

  lemma DeadLetterKeepsQueue(cfg: Config, s: State, step: Step)
    requires StoreInv(cfg, s) && QueueInv(cfg, s) && Enabled(cfg, s, step) && step.DeadLetter?
    ensures QueueInv(cfg, Apply(cfg, s, step))
  {
    hide Accepted, IsDone, BoundedAway, Retained, RetainedDeadTriggers, Retried, Elements;
    var t := step.t;
    var after, task := Apply(cfg, s, step), s.tasks[t];
    assert TaskOk(cfg, s.facts, task);
    assert task.todo[0] in task.todo;
    if !step.written {
      QueueInvByTask(cfg, s, after, t);
    } else {
      var added := (task.e, task.todo[0].name);
      assert DeadTriggerRecord(task.e, task.todo[0].name, "") in after.queue;
      assert IsQueued(after.queue, added.0, added.1);
      forall p | p in after.open && p in Held(cfg, task)
        ensures Accounted(cfg, after, p)
      {
        HeldShrinks(cfg, task, p);
        assert t in after.tasks;
      }
      forall p | p in after.open
        ensures MatchesName(cfg, p.0, p.1) && Accounted(cfg, after, p)
      {
        if p != added { AccountKept(cfg, s, after, t, p); }
      }
    }
  }

  lemma StartRetryKeepsQueue(cfg: Config, s: State, step: Step)
    requires StoreInv(cfg, s) && QueueInv(cfg, s) && Enabled(cfg, s, step) && step.StartRetry?
    ensures QueueInv(cfg, Apply(cfg, s, step))
  {
    hide Accepted, BoundedAway, Retained, Elements, IsDone;
    var t := step.t;
    var after := Apply(cfg, s, step);
    RetriedIsNotEmpty(s.queue);
    forall p | p in s.open
      ensures Accounted(cfg, after, p)
    {
      if IsQueued(s.queue, p.0, p.1) {
        var d :| d in s.queue && d.event == p.0 && d.triggerName == p.1;
        QueuedEventIsRetried(s.facts, s.queue, d);
        FirstTaskHolds(cfg, Retried(s.queue), p.0, p.1);
        assert t in after.tasks;
      } else if IsHeld(cfg, s.tasks, p) {
        var u :| u in s.tasks && p in Held(cfg, s.tasks[u]);
        assert u in after.tasks && p in Held(cfg, after.tasks[u]);
      }
    }
  }

  /** Ids naming events, no drained record's event is lost to a later record of the same id. */
  lemma QueuedEventIsRetried(f: Facts, queue: seq<DeadTriggerRecord>, d: DeadTriggerRecord)
    requires IdsNameEvents(f.stored) && d in queue && forall x :: x in queue ==> x.event in f.stored
    ensures d.event in Retried(queue)
  {
    FirstSeenCovers(queue);
    var id := d.event.id;
    assert id in FirstSeen(queue);
    var i :| 0 <= i < |FirstSeen(queue)| && FirstSeen(queue)[i] == id;
    LastEventIsQueued(queue, id);
    assert Retried(queue)[i] == d.event;
  }

  lemma SweepQueueKeepsQueue(cfg: Config, s: State, step: Step)
    requires QueueInv(cfg, s) && step.SweepQueue?
    ensures QueueInv(cfg, Apply(cfg, s, step))
  {
    hide Accepted, BoundedAway, Retained, Elements, IsDone;
    var bound := step.bound;
    var at := step.at;
    var after := Apply(cfg, s, step);
    forall d | d in after.queue
      ensures d in s.queue
    {
      QueueKeptIsQueued(cfg, s.queue, bound, at, d);
    }
    forall p | p in s.open
      ensures Accounted(cfg, after, p)
    {
      if IsQueued(s.queue, p.0, p.1) {
        var d :| d in s.queue && d.event == p.0 && d.triggerName == p.1;
        if d in after.queue { assert IsQueued(after.queue, p.0, p.1); }
      }
    }
  }

  lemma CrashKeepsQueue(cfg: Config, s: State, step: Step)
    requires QueueInv(cfg, s) && Enabled(cfg, s, step) && step.Crash?
    ensures QueueInv(cfg, Apply(cfg, s, step))
  {
    hide Accepted, BoundedAway, Retained, Elements, IsDone;
    var after := Apply(cfg, s, step);
    forall p | p in s.open
      ensures Accounted(cfg, after, p)
    {
      assert Accounted(cfg, s, p);
    }
  }

  lemma QueueInvKept(cfg: Config, s: State, step: Step)
    requires StoreInv(cfg, s) && QueueInv(cfg, s) && Enabled(cfg, s, step)
    ensures QueueInv(cfg, Apply(cfg, s, step))
  {
    if step.Enqueue? {
      EnqueueKeepsQueue(cfg, s, step);
    } else if step.DeadLetter? {
      DeadLetterKeepsQueue(cfg, s, step);
    } else if step.Handled? {
      HandledKeepsQueue(cfg, s, step);
    } else if step.StartRetry? {
      StartRetryKeepsQueue(cfg, s, step);
    } else if step.SweepQueue? {
      SweepQueueKeepsQueue(cfg, s, step);
    } else if step.Crash? {
      CrashKeepsQueue(cfg, s, step);
    } else if step.MarkCheck? || step.MarkJournal? || step.MarkInsert? {
      MarkKeepsQueue(cfg, s, step);
    } else if Begins(step) {
      BeginKeepsQueue(cfg, s, step);
    } else if IsTaskStep(step) {
      TaskStepsKeepQueue(cfg, s, step);
    } else if IsSweepStep(step) {
      SweepStepsKeepQueue(cfg, s, step);
    } else {
      OtherStepsKeepQueue(cfg, s, step);
    }
  }

  /** Steps that begin a task, other than a retry. */
  predicate Begins(step: Step) {
    step.StartIngest? || step.StartDispatcher? || step.StartSweep? || step.StartReplay? || step.StartRecovery?
  }

  lemma BeginKeepsQueue(cfg: Config, s: State, step: Step)
    requires QueueInv(cfg, s) && Enabled(cfg, s, step) && Begins(step)
    ensures QueueInv(cfg, Apply(cfg, s, step))
  {
    hide Accepted, BoundedAway, Retained, Elements, IsDone;
    QueueInvByTask(cfg, s, Apply(cfg, s, step), step.t);
  }

  lemma MarkKeepsQueue(cfg: Config, s: State, step: Step)
    requires TasksOk(cfg, s) && QueueInv(cfg, s) && Enabled(cfg, s, step)
    requires step.MarkCheck? || step.MarkJournal? || step.MarkInsert?
    ensures QueueInv(cfg, Apply(cfg, s, step))
  {
    hide Accepted, BoundedAway, Retained, RetainedDeadTriggers, Retried, Elements, IsDone;
    assert TaskOk(cfg, s.facts, s.tasks[step.t]);
    QueueInvByTask(cfg, s, Apply(cfg, s, step), step.t);
  }

  /** Steps of tasks that hold no failure, and a cancellation. */
  predicate IsTaskStep(step: Step) {
    step.Append? || step.AppendFails? || step.Send? || step.Receive? || step.Cancel?
  }

  lemma TaskStepsKeepQueue(cfg: Config, s: State, step: Step)
    requires QueueInv(cfg, s) && Enabled(cfg, s, step) && IsTaskStep(step)
    ensures QueueInv(cfg, Apply(cfg, s, step))
  {
    hide Accepted, BoundedAway, Retained, RetainedDeadTriggers, Retried, Elements, IsDone;
    QueueInvByTask(cfg, s, Apply(cfg, s, step), step.t);
  }

  predicate IsSweepStep(step: Step) {
    step.SweepLog? || step.TrimJournal? || step.ResetSet?
  }

  lemma SweepStepsKeepQueue(cfg: Config, s: State, step: Step)
    requires QueueInv(cfg, s) && Enabled(cfg, s, step) && IsSweepStep(step)
    ensures QueueInv(cfg, Apply(cfg, s, step))
  {
    hide Accepted, BoundedAway, Retained, RetainedDeadTriggers, Retried, Elements, IsDone;
    QueueInvByTask(cfg, s, Apply(cfg, s, step), step.t);
  }

  lemma OtherStepsKeepQueue(cfg: Config, s: State, step: Step)
    requires QueueInv(cfg, s) && Enabled(cfg, s, step) && (step.Prune? || step.JobEnds? || step.Restart?)
    ensures QueueInv(cfg, Apply(cfg, s, step))
  {
    hide Held, Accepted, FirstTask, Proceed, BoundedAway, Retained, RetainedDeadTriggers, Retried, Elements, IsDone;
    QueueInvByTask(cfg, s, Apply(cfg, s, step), 0);
  }

  // ------------------------------------------------------------------ accepted events

  ghost predicate InHand(tasks: map<nat, Task>, e: EventEnvelope) {
    exists t :: t in tasks && e in Accepted(tasks[t])
  }

  /** Where an asynchronously accepted event is: waiting to be sent or held by the dispatcher, in the channel,
      finished, or left for a restart. */
  ghost predicate Placed(s: State, e: EventEnvelope) {
    InHand(s.tasks, e) || e in s.channel || e in s.finished || e in s.left
  }

  ghost predicate AsyncInv(cfg: Config, s: State) {
    && s.sent == s.received + s.channel && |s.channel| <= cfg.capacity
    && (forall e :: e in s.accepted ==> e in s.facts.stored && Placed(s, e))
    && (forall e :: e in s.left ==> e in s.facts.stored)
    && (forall e :: e in s.finished ==> e in s.facts.stored && IsDone(cfg, s.facts, e))
  }

  /** Every event that had a place keeps one, if the event of task `t` does. */
  ghost predicate KeepsPlaces(s: State, after: State, t: nat) {
    && s.finished <= after.finished && s.left <= after.left
    && (forall e :: e in s.channel ==> Placed(after, e))
    && (forall u :: u in s.tasks && u != t ==> u in after.tasks && after.tasks[u] == s.tasks[u])
    && (t in s.tasks ==> forall e :: e in Accepted(s.tasks[t]) ==> Placed(after, e))
  }

  lemma PlacesKept(s: State, after: State, t: nat, e: EventEnvelope)
    requires KeepsPlaces(s, after, t) && Placed(s, e)
    ensures Placed(after, e)
  {
    if InHand(s.tasks, e) {
      var u :| u in s.tasks && e in Accepted(s.tasks[u]);
      if u != t {
        assert u in after.tasks && e in Accepted(after.tasks[u]);
      }
    }
  }

  lemma AllPlacesKept(s: State, after: State, t: nat)
    requires KeepsPlaces(s, after, t)
    ensures forall e :: e in s.accepted && Placed(s, e) ==> Placed(after, e)
  {
    forall e | e in s.accepted && Placed(s, e)
      ensures Placed(after, e)
    {
      PlacesKept(s, after, t, e);
    }
  }

  lemma AppendKeepsAsync(cfg: Config, s: State, step: Step)
    requires AsyncInv(cfg, s) && Enabled(cfg, s, step) && step.Append?
    ensures AsyncInv(cfg, Apply(cfg, s, step))
  {
    hide Held, BoundedAway, Retained, RetainedDeadTriggers, Retried, Elements;
    var t := step.t;
    var after := Apply(cfg, s, step);
    FactsGrow(cfg, s.facts, after.facts);
    AllPlacesKept(s, after, t);
    if s.tasks[t].asynchronous {
      assert t in after.tasks && s.tasks[t].e in Accepted(after.tasks[t]);
    }
  }

  lemma SendKeepsAsync(cfg: Config, s: State, step: Step)
    requires AsyncInv(cfg, s) && Enabled(cfg, s, step) && step.Send?
    ensures AsyncInv(cfg, Apply(cfg, s, step))
  {
    hide Held, BoundedAway, Retained, RetainedDeadTriggers, Retried, Elements;
    var t := step.t;
    var after := Apply(cfg, s, step);
    assert s.tasks[t].e in after.channel;
    assert forall e :: e in s.channel ==> e in after.channel;
    assert after.sent == s.received + (s.channel + [s.tasks[t].e]);
    AllPlacesKept(s, after, t);
  }

  lemma ReceiveKeepsAsync(cfg: Config, s: State, step: Step)
    requires AsyncInv(cfg, s) && Enabled(cfg, s, step) && step.Receive?
    ensures AsyncInv(cfg, Apply(cfg, s, step))
  {
    hide Held, BoundedAway, Retained, RetainedDeadTriggers, Retried, Elements;
    var t := step.t;
    var after := Apply(cfg, s, step);
    assert t in after.tasks && s.channel[0] in Accepted(after.tasks[t]);
    assert InHand(after.tasks, s.channel[0]);
    assert s.channel == [s.channel[0]] + after.channel;
    assert forall e :: e in s.channel ==> e == s.channel[0] || e in after.channel;
    AllPlacesKept(s, after, t);
  }

  /** A task that is done with its event passes it on as finished, or had no accepted event. */
  lemma ProceedKeepsAsync(cfg: Config, s: State, t: nat, e: EventEnvelope, plan: Plan)
    requires AsyncInv(cfg, s) && t in s.tasks && e in s.facts.stored && PlanOk(s.facts, plan)
    requires Accepted(s.tasks[t]) == if plan.purpose.ForDispatch? then {e} else {}
    requires plan.purpose.ForDispatch? ==> IsDone(cfg, s.facts, e)
    ensures AsyncInv(cfg, Proceed(cfg, s, t, e, plan))
  {
    hide Accepted, IsDone, FirstTask;
    AllPlacesKept(s, Proceed(cfg, s, t, e, plan), t);
  }

  lemma HandledKeepsAsync(cfg: Config, s: State, step: Step)
    requires StoreInv(cfg, s) && AsyncInv(cfg, s) && Enabled(cfg, s, step)
    requires step.Handled? || step.MarkCheck?
    ensures AsyncInv(cfg, Apply(cfg, s, step))
  {
    var after, task := Apply(cfg, s, step), s.tasks[step.t];
    assert TaskOk(cfg, s.facts, task);
    hide Held, BoundedAway, Retained, RetainedDeadTriggers, Retried, Elements, IsDone, StoreInv;
    if after == Proceed(cfg, s, step.t, task.e, task.plan) {
      ProceedKeepsAsync(cfg, s, step.t, task.e, task.plan);
    } else {
      assert step.t in after.tasks;
      AllPlacesKept(s, after, step.t);
    }
  }

  lemma JournalKeepsAsync(cfg: Config, s: State, step: Step)
    requires TasksOk(cfg, s) && AsyncInv(cfg, s) && Enabled(cfg, s, step) && step.MarkJournal?
    ensures AsyncInv(cfg, Apply(cfg, s, step))
  {
    var after := Apply(cfg, s, step);
    assert TaskOk(cfg, s.facts, s.tasks[step.t]);
    hide Held, BoundedAway, Retained, RetainedDeadTriggers, Retried, Elements, IsDone, Proceed, FirstTask;
    assert step.t in after.tasks || !step.written;
    AllPlacesKept(s, after, step.t);
  }

  lemma InsertKeepsAsync(cfg: Config, s: State, step: Step)
    requires TasksOk(cfg, s) && AsyncInv(cfg, s) && Enabled(cfg, s, step) && step.MarkInsert?
    ensures AsyncInv(cfg, Apply(cfg, s, step))
  {
    var task := s.tasks[step.t];
    assert TaskOk(cfg, s.facts, task);
    hide Held, BoundedAway, Retained, RetainedDeadTriggers, Retried, Elements, IsDone;
    ProceedKeepsAsync(cfg, s.(delivered := s.delivered + {task.e.id}), step.t, task.e, task.plan);
  }

  lemma EnqueueKeepsAsync(cfg: Config, s: State, step: Step)
    requires AsyncInv(cfg, s) && Enabled(cfg, s, step) && step.Enqueue?
    ensures AsyncInv(cfg, Apply(cfg, s, step))
  {
    hide Held, BoundedAway, Retained, RetainedDeadTriggers, Retried, Elements, IsDone, KeyIsLive;
    var after := Apply(cfg, s, step);
    FactsGrow(cfg, s.facts, after.facts);
    assert step.t in after.tasks;
    AllPlacesKept(s, after, step.t);
  }

  lemma DeadLetterKeepsAsync(cfg: Config, s: State, step: Step)
    requires TasksOk(cfg, s) && AsyncInv(cfg, s) && Enabled(cfg, s, step) && step.DeadLetter?
    ensures AsyncInv(cfg, Apply(cfg, s, step))
  {
    hide Held, BoundedAway, Retained, RetainedDeadTriggers, Retried, Elements, IsDone;
    var after := Apply(cfg, s, step);
    assert TaskOk(cfg, s.facts, s.tasks[step.t]);
    FactsGrow(cfg, s.facts, after.facts);
    assert step.t in after.tasks || !step.written;
    AllPlacesKept(s, after, step.t);
  }

  lemma BeginKeepsAsync(cfg: Config, s: State, step: Step)
    requires AsyncInv(cfg, s) && Enabled(cfg, s, step) && Begins(step)
    ensures AsyncInv(cfg, Apply(cfg, s, step))
  {
    hide Held, BoundedAway, Retained, RetainedDeadTriggers, Retried, Elements;
    AllPlacesKept(s, Apply(cfg, s, step), step.t);
  }

  lemma TaskEndsKeepAsync(cfg: Config, s: State, step: Step)
    requires TasksOk(cfg, s) && AsyncInv(cfg, s) && Enabled(cfg, s, step) && (step.AppendFails? || step.Cancel?)
    ensures AsyncInv(cfg, Apply(cfg, s, step))
  {
    assert TaskOk(cfg, s.facts, s.tasks[step.t]);
    AllPlacesKept(s, Apply(cfg, s, step), step.t);
  }

  lemma SweepKeepsAsync(cfg: Config, s: State, step: Step)
    requires AsyncInv(cfg, s) && Enabled(cfg, s, step) && (IsSweepStep(step) || step.StartRetry?)
    ensures AsyncInv(cfg, Apply(cfg, s, step))
  {
    hide Held, BoundedAway, Retained, RetainedDeadTriggers, Elements;
    AllPlacesKept(s, Apply(cfg, s, step), step.t);
  }

  lemma OtherStepsKeepAsync(cfg: Config, s: State, step: Step)
    requires AsyncInv(cfg, s) && Enabled(cfg, s, step)
    requires step.Prune? || step.SweepQueue? || step.JobEnds? || step.Crash? || step.Restart?
    ensures AsyncInv(cfg, Apply(cfg, s, step))
  {
    hide Held, FirstTask, Proceed, BoundedAway, Retained, RetainedDeadTriggers, Retried, Elements;
    if !step.Crash? {
      AllPlacesKept(s, Apply(cfg, s, step), 0);
    }
  }

  lemma AsyncInvKept(cfg: Config, s: State, step: Step)
    requires StoreInv(cfg, s) && AsyncInv(cfg, s) && Enabled(cfg, s, step)
    ensures AsyncInv(cfg, Apply(cfg, s, step))
  {
    if step.Append? {
      AppendKeepsAsync(cfg, s, step);
    } else if step.Send? {
      SendKeepsAsync(cfg, s, step);
    } else if step.Receive? {
      ReceiveKeepsAsync(cfg, s, step);
    } else if step.Handled? || step.MarkCheck? {
      HandledKeepsAsync(cfg, s, step);
    } else if step.MarkJournal? {
      JournalKeepsAsync(cfg, s, step);
    } else if step.MarkInsert? {
      InsertKeepsAsync(cfg, s, step);
    } else if step.Enqueue? {
      EnqueueKeepsAsync(cfg, s, step);
    } else if step.DeadLetter? {
      DeadLetterKeepsAsync(cfg, s, step);
    } else if Begins(step) {
      BeginKeepsAsync(cfg, s, step);
    } else if step.AppendFails? || step.Cancel? {
      TaskEndsKeepAsync(cfg, s, step);
    } else if IsSweepStep(step) || step.StartRetry? {
      SweepKeepsAsync(cfg, s, step);
    } else {
      OtherStepsKeepAsync(cfg, s, step);
    }
  }
}
