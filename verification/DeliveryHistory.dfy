/** What the history of a run means: every event counted as removed and every failure counted as dropped went at a
    step of the run that accounts for it. */
module DeliveryHistory {
  import opened Base
  import opened Retention
  import opened EventStores
  import opened Registry
  import opened Runtime
  import opened TriggerRuntimes
  import opened Delivery

  // ------------------------------------------------------------------ what happened since

  /** Some step before `i` did it, and no step since undid it. */
  ghost predicate Since(does: nat -> bool, undoes: nat -> bool, i: nat) {
    exists k: nat :: k < i && does(k) && forall j: nat :: k < j < i ==> !undoes(j)
  }

  lemma {:induction false} SinceIff(holds: nat -> bool, does: nat -> bool, undoes: nat -> bool, i: nat)
    requires !holds(0)
    requires forall k: nat :: k < i ==> (holds(k + 1) <==> does(k) || (holds(k) && !undoes(k)))
    ensures holds(i) <==> Since(does, undoes, i)
  {
    if i > 0 {
      SinceIff(holds, does, undoes, i - 1);
      if Since(does, undoes, i - 1) && !undoes(i - 1) {
        var k: nat :| k < i - 1 && does(k) && forall j: nat :: k < j < i - 1 ==> !undoes(j);
        assert Since(does, undoes, i);
      }
      if Since(does, undoes, i) && !does(i - 1) {
        var k: nat :| k < i && does(k) && forall j: nat :: k < j < i ==> !undoes(j);
        assert Since(does, undoes, i - 1);
      }
    }
  }

  // ------------------------------------------------------------------ removed events

  /** The step takes the undelivered event out of the log: a prune that does not keep it, or a sweep under a policy
      whose hard age it is past, or whose size bounds it and the later survivors exceed. */
  ghost predicate RemovesUndelivered(cfg: Config, s: State, step: Step, e: EventEnvelope) {
    || (step.Prune? && e in s.log && e !in step.cut.Keep(s.log, EventTime()))
    || (step.SweepLog? && Runs(s, step.t) && s.tasks[step.t].Sweeping? && e in s.log
        && var task := s.tasks[step.t];
           e.id !in task.snapshot
           && ((task.policy.maxAge.Some? && task.now - e.timestamp > task.policy.maxAge.value)
               || !FitsWithLater(cfg.size, task.policy,
                                 Filter(Survives(task.snapshot, task.policy, task.now), s.log), e)))
  }

  /** The step puts the event back: it is stored again, or a restart finds a line of it on disk. */
  ghost predicate PutsBack(s: State, step: Step, e: EventEnvelope) {
    || (step.Append? && Runs(s, step.t) && s.tasks[step.t].Ingesting? && s.tasks[step.t].e == e)
    || (step.Crash? && e in s.disk)
  }

  /** Some step before state `i` removed the event undelivered, and no step since put it back. */
  ghost predicate WasRemoved(cfg: Config, states: seq<State>, steps: seq<Step>, i: nat, e: EventEnvelope)
    requires i < |states| == |steps| + 1
  {
    Since((k: nat) => k < |steps| && RemovesUndelivered(cfg, states[k], steps[k], e),
          (k: nat) => k < |steps| && PutsBack(states[k], steps[k], e), i)
  }

  lemma SameBounded(cfg: Config, s: State, step: Step)
    requires Enabled(cfg, s, step) && !step.Prune? && !step.SweepLog? && !step.Append? && !step.Crash?
    ensures Apply(cfg, s, step).bounded == s.bounded
  {
    hide Held, Accepted, FirstTask, RetainedDeadTriggers, Retried, Elements, Proceed, Fail;
  }

  /** A prune that does not shorten the log keeps all of it. */
  lemma ShortensOrKeeps(cut: ManualRetention, log: seq<EventEnvelope>)
    ensures |cut.Keep(log, EventTime())| == |log| ==> cut.Keep(log, EventTime()) == log
  {
    if cut.OlderThan? { FilterLength(AtOrAfter(cut.cutoff, EventTime()), log); }
  }

  lemma BoundedStep(cfg: Config, s: State, step: Step, e: EventEnvelope)
    requires Enabled(cfg, s, step)
    ensures e in Apply(cfg, s, step).bounded <==>
              RemovesUndelivered(cfg, s, step, e) || (e in s.bounded && !PutsBack(s, step, e))
  {
    hide Held, Accepted, FirstTask, RetainedDeadTriggers, Retried;
    if step.SweepLog? {
      var task := s.tasks[step.t];
      RetentionIsSoundAndMaximal(s.log, task.snapshot, task.policy, task.now, cfg.size, e);
      RetainedMembers(s.log, task.snapshot, task.policy, task.now, cfg.size);
    } else if step.Prune? {
      ShortensOrKeeps(step.cut, s.log);
    } else if !step.Append? && !step.Crash? {
      SameBounded(cfg, s, step);
    }
  }

  /** An event is counted as removed if and only if an earlier step removed it and none since put it back. */
  lemma BoundedIffRemoved(cfg: Config, states: seq<State>, steps: seq<Step>, i: nat, e: EventEnvelope)
    requires Execution(cfg, states, steps) && i < |states|
    ensures e in states[i].bounded <==> WasRemoved(cfg, states, steps, i, e)
  {
    hide RemovesUndelivered, PutsBack, Apply, Enabled;
    forall k: nat | k < i
      ensures e in states[k + 1].bounded <==>
                RemovesUndelivered(cfg, states[k], steps[k], e)
                || (e in states[k].bounded && !PutsBack(states[k], steps[k], e))
    {
      BoundedStep(cfg, states[k], steps[k], e);
    }
    SinceIff((k: nat) => k < |states| && e in states[k].bounded,
             (k: nat) => k < |steps| && RemovesUndelivered(cfg, states[k], steps[k], e),
             (k: nat) => k < |steps| && PutsBack(states[k], steps[k], e), i);
  }

  // ------------------------------------------------------------------ runs without hard bounds

  /** Every sweep of the run is under a grace-only policy, and nothing is pruned by hand. */
  ghost predicate GraceOnlyRun(steps: seq<Step>) {
    forall k :: 0 <= k < |steps| ==> !steps[k].Prune? && (steps[k].StartSweep? ==> steps[k].policy.GraceOnly())
  }

  ghost predicate SweepsAreGraceOnly(s: State) {
    forall t :: t in s.tasks && s.tasks[t].Sweeping? ==> s.tasks[t].policy.GraceOnly()
  }

  /** The steps of a task that handles or marks. */
  predicate Handles(step: Step) {
    step.Enqueue? || step.DeadLetter? || step.Handled? || step.MarkCheck? || step.MarkJournal? || step.MarkInsert?
  }

  /** Only the start of a sweep makes a task a sweep. */
  lemma HandlersStayNoSweeps(cfg: Config, s: State, step: Step)
    requires Enabled(cfg, s, step) && SweepsAreGraceOnly(s) && (step.Enqueue? || step.DeadLetter?)
    ensures SweepsAreGraceOnly(Apply(cfg, s, step))
  {
    hide Held, Accepted, BoundedAway, Retained, RetainedDeadTriggers, Retried, Elements, KeepsHistory, KeyIsLive;
  }

  lemma MarkersStayNoSweeps(cfg: Config, s: State, step: Step)
    requires Enabled(cfg, s, step) && SweepsAreGraceOnly(s) && Handles(step) && !step.Enqueue? && !step.DeadLetter?
    ensures SweepsAreGraceOnly(Apply(cfg, s, step))
  {
    hide Held, Accepted, BoundedAway, Retained, RetainedDeadTriggers, Retried, Elements, KeepsHistory, LandJob;
  }

  lemma SweepsStayGraceOnly(cfg: Config, s: State, step: Step)
    requires Enabled(cfg, s, step) && SweepsAreGraceOnly(s) && (step.StartSweep? ==> step.policy.GraceOnly())
    ensures SweepsAreGraceOnly(Apply(cfg, s, step))
  {
    if step.Enqueue? || step.DeadLetter? {
      HandlersStayNoSweeps(cfg, s, step);
    } else if Handles(step) {
      MarkersStayNoSweeps(cfg, s, step);
    } else {
      hide Held, Accepted, BoundedAway, Retained, RetainedDeadTriggers, Retried, Elements, LandJob;
    }
  }

  lemma {:induction false} AllSweepsAreGraceOnly(cfg: Config, states: seq<State>, steps: seq<Step>, i: nat)
    requires Execution(cfg, states, steps) && GraceOnlyRun(steps) && i < |states|
    ensures SweepsAreGraceOnly(states[i])
  {
    if i > 0 {
      AllSweepsAreGraceOnly(cfg, states, steps, i - 1);
      SweepsStayGraceOnly(cfg, states[i - 1], steps[i - 1]);
    }
  }

  /** Without hard bounds and manual prunes no undelivered event is removed. */
  lemma GraceOnlyRemovesNothing(cfg: Config, states: seq<State>, steps: seq<Step>, i: nat, e: EventEnvelope)
    requires Execution(cfg, states, steps) && GraceOnlyRun(steps) && i < |states|
    ensures !WasRemoved(cfg, states, steps, i, e)
  {
    forall k | 0 <= k < i
      ensures !RemovesUndelivered(cfg, states[k], steps[k], e)
    {
      var s, step := states[k], steps[k];
      AllSweepsAreGraceOnly(cfg, states, steps, k);
      if step.SweepLog? && Runs(s, step.t) && s.tasks[step.t].Sweeping? {
        var task := s.tasks[step.t];
        RetentionIsSoundAndMaximal(s.log, task.snapshot, task.policy, task.now, cfg.size, e);
      }
    }
  }

  // ------------------------------------------------------------------ dropped failures

  /** The step gives up a recorded failure: a hard bound on the queue removes it, or the retry pass that holds it
      ends early, by a crash, a cancellation, or a write to the queue that fails. */
  ghost predicate DropsFailure(cfg: Config, s: State, step: Step, p: (EventEnvelope, string)) {
    || (step.SweepQueue?
        && exists d :: d in s.queue && (d.event, d.triggerName) == p
             && d !in RetainedDeadTriggers(s.queue, step.bound, step.at, cfg.deadSize))
    || (step.Crash? && exists t :: t in s.tasks && p in Held(cfg, s.tasks[t]))
    || ((step.Cancel? || (step.DeadLetter? && !step.written))
        && step.t in s.tasks && p in Held(cfg, s.tasks[step.t]))
  }

  /** The step records this failure in the queue. */
  ghost predicate Records(s: State, step: Step, p: (EventEnvelope, string)) {
    && step.DeadLetter? && step.written
    && Runs(s, step.t) && s.tasks[step.t].Handling? && s.tasks[step.t].todo != []
    && p == (s.tasks[step.t].e, s.tasks[step.t].todo[0].name)
  }

  /** The broker accepts, at this step, the event's submission for this registration. */
  ghost predicate Answers(s: State, step: Step, e: EventEnvelope, r: RegisteredTrigger) {
    && step.Enqueue? && step.outcome.Accepts?
    && Runs(s, step.t) && s.tasks[step.t].Handling? && s.tasks[step.t].todo != []
    && s.tasks[step.t].e == e && s.tasks[step.t].todo[0] == r
  }

  /** The same for a registration of this name. */
  ghost predicate AnswersName(s: State, step: Step, p: (EventEnvelope, string)) {
    exists r :: Answers(s, step, p.0, r) && r.name == p.1
  }

  /** Some step before state `i` gave the failure up, and it was not recorded again since. */
  ghost predicate WasDropped(cfg: Config, states: seq<State>, steps: seq<Step>, i: nat, p: (EventEnvelope, string))
    requires i < |states| == |steps| + 1
  {
    Since((k: nat) => k < |steps| && DropsFailure(cfg, states[k], steps[k], p),
          (k: nat) => k < |steps| && Records(states[k], steps[k], p), i)
  }

  /** The failure was recorded before state `i`, and no submission under that name was accepted for the event since. */
  ghost predicate IsOpen(states: seq<State>, steps: seq<Step>, i: nat, p: (EventEnvelope, string))
    requires i < |states| == |steps| + 1
  {
    Since((k: nat) => k < |steps| && Records(states[k], steps[k], p),
          (k: nat) => k < |steps| && AnswersName(states[k], steps[k], p), i)
  }

  lemma SameDropped(cfg: Config, s: State, step: Step)
    requires Enabled(cfg, s, step) && !step.SweepQueue? && !step.Crash? && !step.Cancel? && !step.DeadLetter?
    requires step.MarkJournal? ==> Held(cfg, s.tasks[step.t]) == {}
    ensures Apply(cfg, s, step).dropped == s.dropped
  {
    hide Held, Accepted, FirstTask, BoundedAway, Retained, RetainedDeadTriggers, Retried, Elements;
  }

  lemma GivenUpStep(cfg: Config, s: State, step: Step, p: (EventEnvelope, string))
    requires Enabled(cfg, s, step) && (step.SweepQueue? || step.Crash? || step.Cancel? || step.DeadLetter?)
    ensures p in Apply(cfg, s, step).dropped <==>
              DropsFailure(cfg, s, step, p) || (p in s.dropped && !Records(s, step, p))
  {
    hide Held, Accepted, FirstTask, BoundedAway, Retained, RetainedDeadTriggers, Retried, Elements, Proceed,
         KeepsHistory;
  }

  lemma DroppedStep(cfg: Config, s: State, step: Step, p: (EventEnvelope, string))
    requires Enabled(cfg, s, step)
    ensures p in Apply(cfg, s, step).dropped <==>
              DropsFailure(cfg, s, step, p) || (p in s.dropped && !Records(s, step, p))
  {
    if step.SweepQueue? || step.Crash? || step.Cancel? || step.DeadLetter? {
      GivenUpStep(cfg, s, step, p);
    } else {
      hide Held, Accepted, FirstTask, BoundedAway, Retained, RetainedDeadTriggers, Retried, Elements, Proceed, Fail,
           Apply;
      SameDropped(cfg, s, step);
    }
  }

  /** A failure is counted as dropped if and only if an earlier step gave it up and none since recorded it again. */
  lemma DroppedIffGivenUp(cfg: Config, states: seq<State>, steps: seq<Step>, i: nat, p: (EventEnvelope, string))
    requires Execution(cfg, states, steps) && i < |states|
    ensures p in states[i].dropped <==> WasDropped(cfg, states, steps, i, p)
  {
    hide DropsFailure, Records, Apply, Enabled;
    forall k: nat | k < i
      ensures p in states[k + 1].dropped <==>
                || DropsFailure(cfg, states[k], steps[k], p)
                || (p in states[k].dropped && !Records(states[k], steps[k], p))
    {
      DroppedStep(cfg, states[k], steps[k], p);
    }
    SinceIff((k: nat) => k < |states| && p in states[k].dropped,
             (k: nat) => k < |steps| && DropsFailure(cfg, states[k], steps[k], p),
             (k: nat) => k < |steps| && Records(states[k], steps[k], p), i);
  }

  // ------------------------------------------------------------------ answers and records

  lemma SameAnswers(cfg: Config, s: State, step: Step)
    requires Enabled(cfg, s, step) && !step.Enqueue? && !step.DeadLetter?
    ensures
      var after := Apply(cfg, s, step);
      && after.open == s.open && after.facts.answered == s.facts.answered && after.facts.dead == s.facts.dead
  {
    hide Held, Accepted, FirstTask, BoundedAway, Retained, RetainedDeadTriggers, Retried, Elements, Proceed, Fail;
  }

  lemma AnswerStep(cfg: Config, s: State, step: Step, e: EventEnvelope, r: RegisteredTrigger)
    requires Enabled(cfg, s, step)
    ensures (e, r) in Apply(cfg, s, step).facts.answered <==> Answers(s, step, e, r) || (e, r) in s.facts.answered
  {
    hide Held, Accepted;
    if !step.Enqueue? && !step.DeadLetter? { SameAnswers(cfg, s, step); }
  }

  lemma RecordStep(cfg: Config, s: State, step: Step, p: (EventEnvelope, string))
    requires Enabled(cfg, s, step)
    ensures
      var after := Apply(cfg, s, step);
      && (p in after.facts.dead <==> Records(s, step, p) || p in s.facts.dead)
      && (p in after.open <==> Records(s, step, p) || (p in s.open && !AnswersName(s, step, p)))
  {
    hide Held, Accepted;
    if !step.Enqueue? && !step.DeadLetter? {
      SameAnswers(cfg, s, step);
    } else if step.Enqueue? && step.outcome.Accepts? && p.0 == s.tasks[step.t].e {
      assert p.1 == s.tasks[step.t].todo[0].name ==> Answers(s, step, p.0, s.tasks[step.t].todo[0]);
    }
  }

  /** An event counts as answered for a registration if and only if its submission was accepted at some step. */
  lemma {:induction false} AnsweredIff(cfg: Config, states: seq<State>, steps: seq<Step>, i: nat, e: EventEnvelope,
      r: RegisteredTrigger)
    requires Execution(cfg, states, steps) && i < |states|
    ensures (e, r) in states[i].facts.answered <==> exists k :: 0 <= k < i && Answers(states[k], steps[k], e, r)
  {
    hide Answers, Apply, Enabled;
    if i > 0 {
      AnsweredIff(cfg, states, steps, i - 1, e, r);
      AnswerStep(cfg, states[i - 1], steps[i - 1], e, r);
    }
  }

  /** A failure counts as recorded if and only if some step wrote it to the queue. */
  lemma {:induction false} DeadIffRecorded(cfg: Config, states: seq<State>, steps: seq<Step>, i: nat,
      p: (EventEnvelope, string))
    requires Execution(cfg, states, steps) && i < |states|
    ensures p in states[i].facts.dead <==> exists k :: 0 <= k < i && Records(states[k], steps[k], p)
  {
    hide Records, AnswersName, Apply, Enabled;
    if i > 0 {
      DeadIffRecorded(cfg, states, steps, i - 1, p);
      RecordStep(cfg, states[i - 1], steps[i - 1], p);
    }
  }

  /** A failure counts as open if and only if it was recorded and not answered since. */
  lemma OpenIffUnanswered(cfg: Config, states: seq<State>, steps: seq<Step>, i: nat, p: (EventEnvelope, string))
    requires Execution(cfg, states, steps) && i < |states|
    ensures p in states[i].open <==> IsOpen(states, steps, i, p)
  {
    hide Records, AnswersName, Apply, Enabled;
    forall k: nat | k < i
      ensures p in states[k + 1].open <==>
                Records(states[k], steps[k], p) || (p in states[k].open && !AnswersName(states[k], steps[k], p))
    {
      RecordStep(cfg, states[k], steps[k], p);
    }
    SinceIff((k: nat) => k < |states| && p in states[k].open,
             (k: nat) => k < |steps| && Records(states[k], steps[k], p),
             (k: nat) => k < |steps| && AnswersName(states[k], steps[k], p), i);
  }

  // ------------------------------------------------------------------ stored events

  lemma StoredStep(cfg: Config, s: State, step: Step)
    requires Enabled(cfg, s, step)
    ensures s.facts.stored <= Apply(cfg, s, step).facts.stored
  {
    hide Held, Accepted, FirstTask, BoundedAway, Retained, RetainedDeadTriggers, Retried, Elements, Proceed, Fail;
  }

  lemma {:induction false} StoredStays(cfg: Config, states: seq<State>, steps: seq<Step>, j: nat, i: nat)
    requires Execution(cfg, states, steps) && j <= i < |states|
    ensures states[j].facts.stored <= states[i].facts.stored
  {
    hide Apply, Enabled;
    if j < i {
      StoredStays(cfg, states, steps, j, i - 1);
      StoredStep(cfg, states[i - 1], steps[i - 1]);
    }
  }
}
