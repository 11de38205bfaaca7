/** Startup recovery in the protocol: while a server starts, nothing but recovery runs, and it opens only when every
    retained event is known delivered. */
module DeliveryRecovery {
  import opened Base
  import opened Retention
  import opened EventStores
  import opened Registry
  import opened Runtime
  import opened TriggerRuntimes
  import opened Delivery

  ghost predicate IsRecovering(task: Task) {
    (task.Handling? || task.Marking?) && task.plan.purpose.ForRecovery?
  }

  /** The recovery still has the event before it. */
  ghost predicate StillRecovers(task: Task, e: EventEnvelope) {
    IsRecovering(task) && (task.e == e || e in task.plan.rest)
  }

  /** Recoveries run only in a starting server, and there alone: one at most, and every retained event is known
      delivered or still before it. */
  ghost predicate StartupInv(s: State) {
    && (s.phase.Down? ==> s.tasks.Keys == {})
    && (!s.phase.Starting? ==> forall t :: t in s.tasks ==> !IsRecovering(s.tasks[t]))
    && (s.phase.Starting? ==>
          && (forall t, u :: t in s.tasks && u in s.tasks ==> t == u)
          && (forall t :: t in s.tasks ==> IsRecovering(s.tasks[t]))
          && forall t, e :: t in s.tasks && e in s.log ==> e.id in s.delivered || StillRecovers(s.tasks[t], e))
  }

  lemma StartRecoveryKeeps(cfg: Config, s: State, step: Step)
    requires StartupInv(s) && Enabled(cfg, s, step) && step.StartRecovery?
    ensures StartupInv(Apply(cfg, s, step))
  {
    var pending := StoreState(s.log, s.delivered).Undelivered();
    if pending != [] {
      var task := FirstTask(cfg, pending, ForRecovery);
      assert pending == [pending[0]] + pending[1..];
      forall e | e in s.log && e.id !in s.delivered
        ensures StillRecovers(task, e)
      {
        FilterMember(NotIn(s.delivered), s.log, e);
      }
    }
  }

  /** Steps that a recovery takes, or that are not a task's. */
  predicate IsRecoveryStep(step: Step) {
    step.Enqueue? || step.DeadLetter? || step.Handled? || step.MarkCheck? || step.MarkJournal? || step.MarkInsert?
    || step.Cancel?
  }

  lemma ProceedKeeps(cfg: Config, s: State, t: nat, e: EventEnvelope, plan: Plan)
    requires StartupInv(s) && t in s.tasks && IsRecovering(s.tasks[t]) && s.tasks[t].e == e && s.tasks[t].plan == plan
    requires s.phase.Starting? && e.id in s.delivered
    ensures StartupInv(Proceed(cfg, s, t, e, plan))
  {
    if plan.rest != [] {
      assert plan.rest == [plan.rest[0]] + plan.rest[1..];
    }
  }

  lemma MarksKeep(cfg: Config, s: State, step: Step)
    requires StartupInv(s) && Enabled(cfg, s, step) && s.phase.Starting? && (step.MarkCheck? || step.MarkInsert?)
    ensures StartupInv(Apply(cfg, s, step))
  {
    var task := s.tasks[step.t];
    if step.MarkInsert? {
      ProceedKeeps(cfg, s.(delivered := s.delivered + {task.e.id}), step.t, task.e, task.plan);
    } else if task.e.id in s.delivered {
      ProceedKeeps(cfg, s, step.t, task.e, task.plan);
    }
  }

  lemma OthersKeep(cfg: Config, s: State, step: Step)
    requires StartupInv(s) && Enabled(cfg, s, step) && s.phase.Starting?
    requires IsRecoveryStep(step) && !step.MarkCheck? && !step.MarkInsert?
    ensures StartupInv(Apply(cfg, s, step))
  {
    hide Held, Accepted;
    assert IsRecovering(s.tasks[step.t]);
  }

  lemma PruneKeeps(cfg: Config, s: State, step: Step)
    requires StartupInv(s) && step.Prune?
    ensures StartupInv(Apply(cfg, s, step))
  {
    var kept := step.cut.Keep(s.log, EventTime());
    forall e | e in kept
      ensures e in s.log
    {
      ManualPolicyKeeps(step.cut, s.log, EventTime(), e);
    }
  }

  /** Steps in a server or a command that is open. */
  lemma OpenKeeps(cfg: Config, s: State, step: Step)
    requires StartupInv(s) && Enabled(cfg, s, step) && (s.phase.Serving? || s.phase.Command?)
    requires !IsRecoveryStep(step) && !step.Prune? && !step.Crash?
    ensures StartupInv(Apply(cfg, s, step))
  {
    hide Held, Accepted, BoundedAway, Retained, RetainedDeadTriggers, Retried, Elements, Proceed, Fail, StillRecovers;
  }

  lemma OpenTasksKeep(cfg: Config, s: State, step: Step)
    requires StartupInv(s) && Enabled(cfg, s, step) && (s.phase.Serving? || s.phase.Command?) && IsRecoveryStep(step)
    ensures StartupInv(Apply(cfg, s, step))
  {
    hide Held, Accepted, BoundedAway, Retained, RetainedDeadTriggers, Retried, Elements, StillRecovers;
    assert !IsRecovering(s.tasks[step.t]);
  }

  lemma RestKeeps(cfg: Config, s: State, step: Step)
    requires StartupInv(s) && Enabled(cfg, s, step)
    requires step.SweepQueue? || step.JobEnds? || step.Crash? || step.Restart?
    ensures StartupInv(Apply(cfg, s, step))
  {
    hide Held, Accepted, RetainedDeadTriggers, IsRecovering, StillRecovers;
  }

  /** In a starting server no other step is possible. */
  lemma NothingElseStarts(cfg: Config, s: State, step: Step)
    requires StartupInv(s) && Enabled(cfg, s, step) && (s.phase.Starting? || s.phase.Down?)
    ensures step.StartRecovery? || IsRecoveryStep(step) || step.Prune? || step.SweepQueue? || step.JobEnds?
         || step.Crash? || step.Restart?
    ensures s.phase.Down? ==> !IsRecoveryStep(step) && !step.StartRecovery?
  {
    hide StillRecovers;
  }

  lemma StartupInvKept(cfg: Config, s: State, step: Step)
    requires StartupInv(s) && Enabled(cfg, s, step)
    ensures StartupInv(Apply(cfg, s, step))
  {
    hide StartupInv, Enabled, Apply;
    if step.Prune? {
      PruneKeeps(cfg, s, step);
    } else if step.SweepQueue? || step.JobEnds? || step.Crash? || step.Restart? {
      RestKeeps(cfg, s, step);
    } else if s.phase.Serving? || s.phase.Command? {
      if IsRecoveryStep(step) { OpenTasksKeep(cfg, s, step); } else { OpenKeeps(cfg, s, step); }
    } else {
      NothingElseStarts(cfg, s, step);
      if step.StartRecovery? {
        StartRecoveryKeeps(cfg, s, step);
      } else if step.MarkCheck? || step.MarkInsert? {
        MarksKeep(cfg, s, step);
      } else {
        OthersKeep(cfg, s, step);
      }
    }
  }

  lemma {:induction false} StartupInvHolds(cfg: Config, states: seq<State>, steps: seq<Step>, i: nat)
    requires Execution(cfg, states, steps) && i < |states|
    ensures StartupInv(states[i])
  {
    if i > 0 {
      StartupInvHolds(cfg, states, steps, i - 1);
      StartupInvKept(cfg, states[i - 1], steps[i - 1]);
    }
  }

  /** At the step that opens a server, every retained event is known delivered. */
  lemma OpensWhenRecovered(cfg: Config, s: State, step: Step, e: EventEnvelope)
    requires StartupInv(s) && Enabled(cfg, s, step) && s.phase.Starting? && Apply(cfg, s, step).phase.Serving?
    requires e in Apply(cfg, s, step).log
    ensures e.id in Apply(cfg, s, step).delivered
  {
    hide Held, Accepted, BoundedAway, Retained, RetainedDeadTriggers, Retried, Elements;
    NothingElseStarts(cfg, s, step);
    if step.StartRecovery? {
      FilterMember(NotIn(s.delivered), s.log, e);
    } else if IsRecoveryStep(step) {
      assert IsRecovering(s.tasks[step.t]);
      assert e.id in s.delivered || StillRecovers(s.tasks[step.t], e);
    }
  }
}
