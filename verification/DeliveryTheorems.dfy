/** Delivery, over every run of the protocol. */
module DeliveryTheorems {
  import opened Base
  import opened EventStores
  import opened Registry
  import opened Runtime
  import opened Delivery
  import opened DeliveryInvariants
  import opened DeliveryAccounting
  import opened DeliveryHistory
  import opened DeliveryRecovery

  ghost predicate Inv(cfg: Config, s: State) {
    StoreInv(cfg, s) && BrokerInv(cfg, s) && QueueInv(cfg, s) && AsyncInv(cfg, s)
  }

  lemma InvKept(cfg: Config, s: State, step: Step)
    requires GoodConfig(cfg) && Inv(cfg, s) && Enabled(cfg, s, step)
    ensures Inv(cfg, Apply(cfg, s, step))
  {
    hide StoreInv, BrokerInv, QueueInv, AsyncInv, Enabled, Apply;
    StoreInvKept(cfg, s, step);
    BrokerInvKept(cfg, s, step);
    QueueInvKept(cfg, s, step);
    AsyncInvKept(cfg, s, step);
  }

  lemma InitialIsGood(cfg: Config)
    ensures Inv(cfg, Initial())
  {
  }

  lemma {:induction false} InvHolds(cfg: Config, states: seq<State>, steps: seq<Step>, i: nat)
    requires GoodConfig(cfg) && Execution(cfg, states, steps) && i < |states|
    ensures Inv(cfg, states[i])
  {
    hide Inv, Enabled, Apply;
    if i == 0 {
      InitialIsGood(cfg);
    } else {
      InvHolds(cfg, states, steps, i - 1);
      InvKept(cfg, states[i - 1], steps[i - 1]);
    }
  }

  ghost predicate HasLiveJob(jobs: seq<Job>, identity: string, r: RegisteredTrigger) {
    exists j :: 0 <= j < |jobs| && jobs[j].live && Identity(jobs[j].event) == identity && jobs[j].trigger == r
  }

  /** The broker accepted this event's own submission for the registration at a step before state `i`, and right
      after that step a job of the event's identity and this very registration was live. */
  ghost predicate WasAnswered(states: seq<State>, steps: seq<Step>, i: nat, e: EventEnvelope, r: RegisteredTrigger)
    requires i < |states| == |steps| + 1
  {
    exists k :: 0 <= k < i && Answers(states[k], steps[k], e, r) && HasLiveJob(states[k + 1].jobs, Identity(e), r)
  }

  ghost predicate WasRecorded(states: seq<State>, steps: seq<Step>, i: nat, p: (EventEnvelope, string))
    requires i < |states| == |steps| + 1
  {
    exists k :: 0 <= k < i && Records(states[k], steps[k], p)
  }

  /** Every trigger that matches the event was dealt with: its submission was answered, or its failure was written to
      the dead-trigger queue. */
  ghost predicate AllDealtWith(cfg: Config, states: seq<State>, steps: seq<Step>, i: nat, e: EventEnvelope)
    requires i < |states| == |steps| + 1
  {
    forall r :: r in cfg.Matching(e) ==>
      WasAnswered(states, steps, i, e, r) || WasRecorded(states, steps, i, (e, r.name))
  }

  /** Because keys tell registrations apart, the job that answers a submission, new or taken for a duplicate's, is of
      the event's identity and the very registration. */
  lemma AnswerHasJob(cfg: Config, s: State, step: Step, e: EventEnvelope, r: RegisteredTrigger)
    requires GoodConfig(cfg) && StoreInv(cfg, s) && BrokerInv(cfg, s) && Enabled(cfg, s, step) && Answers(s, step, e, r)
    ensures HasLiveJob(Apply(cfg, s, step).jobs, Identity(e), r)
  {
    StoredTask(cfg, s, step.t);
    LandIsLive(cfg, s, e, r);
    assert Apply(cfg, s, step).jobs == LandJob(s, e, r).jobs;
  }

  lemma LandIsLive(cfg: Config, s: State, e: EventEnvelope, r: RegisteredTrigger)
    requires GoodConfig(cfg) && BrokerInv(cfg, s) && r in cfg.registrations
    ensures HasLiveJob(LandJob(s, e, r).jobs, Identity(e), r)
  {
    var jobs := LandJob(s, e, r).jobs;
    if KeyIsLive(s.jobs, SubmissionKey(Identity(e), r.name)) {
      var j :| 0 <= j < |jobs| && jobs[j].live && jobs[j].Key() == SubmissionKey(Identity(e), r.name);
      OneOwner(cfg.registrations, jobs[j].trigger, Identity(jobs[j].event), r, Identity(e));
    } else {
      assert jobs[|s.jobs|] == Job(e, r, true);
    }
  }

  lemma DoneIsDealtWith(cfg: Config, states: seq<State>, steps: seq<Step>, i: nat, e: EventEnvelope)
    requires GoodConfig(cfg) && Execution(cfg, states, steps) && i < |states| && IsDone(cfg, states[i].facts, e)
    ensures AllDealtWith(cfg, states, steps, i, e)
  {
    hide Answers, Records, HasLiveJob, Inv, Enabled, Apply, GoodConfig;
    forall r | r in cfg.Matching(e)
      ensures WasAnswered(states, steps, i, e, r) || WasRecorded(states, steps, i, (e, r.name))
    {
      assert IsCovered(states[i].facts, e, r);
      AnsweredIff(cfg, states, steps, i, e, r);
      DeadIffRecorded(cfg, states, steps, i, (e, r.name));
      if (e, r) in states[i].facts.answered {
        var k :| 0 <= k < i && Answers(states[k], steps[k], e, r);
        AnsweredAt(cfg, states, steps, k, e, r);
      }
    }
  }

  lemma AnsweredAt(cfg: Config, states: seq<State>, steps: seq<Step>, k: nat, e: EventEnvelope, r: RegisteredTrigger)
    requires GoodConfig(cfg) && Execution(cfg, states, steps) && k < |steps| && Answers(states[k], steps[k], e, r)
    ensures HasLiveJob(states[k + 1].jobs, Identity(e), r)
  {
    hide Answers, HasLiveJob, StoreInv, BrokerInv, QueueInv, AsyncInv, Enabled, Apply, GoodConfig;
    InvHolds(cfg, states, steps, k);
    AnswerHasJob(cfg, states[k], steps[k], e, r);
  }

  // ------------------------------------------------------------------ no event is lost

  ghost predicate AwaitsRestart(s: State, e: EventEnvelope) {
    e in s.log && e in s.disk && e.id !in s.journal
  }

  /** In the log, on disk too, and not journalled as delivered, so that a restart recovers it; or every trigger that
      matches it was dealt with; or a hard bound or a prune removed it and it did not come back. */
  ghost predicate IsSafe(cfg: Config, states: seq<State>, steps: seq<Step>, i: nat, e: EventEnvelope)
    requires i < |states| == |steps| + 1
  {
    || AwaitsRestart(states[i], e)
    || AllDealtWith(cfg, states, steps, i, e)
    || WasRemoved(cfg, states, steps, i, e)
  }

  /** No acknowledged event is silently lost. In every state of every run, through any interleaving and any
      crashes, an event whose append succeeded is safe. */
  lemma NoAcknowledgedEventIsLost(cfg: Config, states: seq<State>, steps: seq<Step>, i: nat, e: EventEnvelope)
    requires GoodConfig(cfg) && Execution(cfg, states, steps) && i < |states| && e in states[i].facts.stored
    ensures IsSafe(cfg, states, steps, i, e)
  {
    InvHolds(cfg, states, steps, i);
    var s := states[i];
    SnapshotIsDone(cfg, s.facts, Elements(s.journal), e);
    if IsDone(cfg, s.facts, e) {
      DoneIsDealtWith(cfg, states, steps, i, e);
    } else if e in s.bounded {
      BoundedIffRemoved(cfg, states, steps, i, e);
    }
  }

  /** Without hard bounds and manual prunes, it awaits a restart in the log, or is dealt with. */
  lemma GraceOnlyRunsLoseNothing(cfg: Config, states: seq<State>, steps: seq<Step>, i: nat, e: EventEnvelope)
    requires GoodConfig(cfg) && Execution(cfg, states, steps) && i < |states| && e in states[i].facts.stored
    requires GraceOnlyRun(steps)
    ensures AwaitsRestart(states[i], e) || AllDealtWith(cfg, states, steps, i, e)
  {
    hide AllDealtWith, AwaitsRestart, WasRemoved, Execution;
    NoAcknowledgedEventIsLost(cfg, states, steps, i, e);
    GraceOnlyRemovesNothing(cfg, states, steps, i, e);
  }

  /** Nothing is marked delivered before its handling succeeded: an id in the journal or in the cached set is
      that of a stored event every trigger of which was dealt with. Stale snapshots and the two separate
      rewrites of a sweep can lose a mark, never invent one. */
  lemma OnlyDealtWithEventsAreMarked(cfg: Config, states: seq<State>, steps: seq<Step>, i: nat, id: EventId)
    requires GoodConfig(cfg) && Execution(cfg, states, steps) && i < |states|
    requires id in states[i].journal || id in states[i].delivered
    ensures exists e :: e in states[i].facts.stored && e.id == id && AllDealtWith(cfg, states, steps, i, e)
  {
    InvHolds(cfg, states, steps, i);
    var s := states[i];
    assert id in Elements(s.journal) || id in s.delivered;
    var e :| e in s.facts.stored && e.id == id && IsDone(cfg, s.facts, e);
    DoneIsDealtWith(cfg, states, steps, i, e);
  }

  /** Recover before traffic: when a starting server opens, every event stored so far, before whatever crashes, has
      every trigger dealt with, or was removed by a hard bound or a prune. */
  lemma RecoveryIsComplete(cfg: Config, states: seq<State>, steps: seq<Step>, i: nat, e: EventEnvelope)
    requires GoodConfig(cfg) && Execution(cfg, states, steps) && i < |steps|
    requires states[i].phase.Starting? && states[i + 1].phase.Serving?
    requires e in states[i + 1].facts.stored
    ensures AllDealtWith(cfg, states, steps, i + 1, e) || WasRemoved(cfg, states, steps, i + 1, e)
  {
    var s := states[i + 1];
    InvHolds(cfg, states, steps, i + 1);
    if e in s.log {
      StartupInvHolds(cfg, states, steps, i);
      OpensWhenRecovered(cfg, states[i], steps[i], e);
      SnapshotIsDone(cfg, s.facts, s.delivered, e);
      DoneIsDealtWith(cfg, states, steps, i + 1, e);
    } else if IsDone(cfg, s.facts, e) {
      DoneIsDealtWith(cfg, states, steps, i + 1, e);
    } else {
      BoundedIffRemoved(cfg, states, steps, i + 1, e);
    }
  }

  // ------------------------------------------------------------------ nothing is done twice

  lemma {:induction false} OneLiveHolds(cfg: Config, states: seq<State>, steps: seq<Step>, i: nat)
    requires Execution(cfg, states, steps) && i < |states|
    ensures OneLive(states[i].jobs)
  {
    if i > 0 {
      OneLiveHolds(cfg, states, steps, i - 1);
      OneLiveKept(cfg, states[i - 1], steps[i - 1]);
    }
  }

  /** However many duplicate ingests, submission retries, replays, recoveries and dead-trigger retries there are, and
      whatever the trigger names, at most one job per event identity and trigger name is live at any time. */
  lemma AtMostOneLiveJob(cfg: Config, states: seq<State>, steps: seq<Step>, i: nat, j: nat, k: nat)
    requires Execution(cfg, states, steps) && i < |states|
    requires j < |states[i].jobs| && k < |states[i].jobs| && states[i].jobs[j].live && states[i].jobs[k].live
    requires Identity(states[i].jobs[j].event) == Identity(states[i].jobs[k].event)
    requires states[i].jobs[j].trigger.name == states[i].jobs[k].trigger.name
    ensures j == k
  {
    OneLiveHolds(cfg, states, steps, i);
    assert states[i].jobs[j].Key() == states[i].jobs[k].Key();
  }

  // ------------------------------------------------------------------ no failure is forgotten

  /** A recorded failure is not forgotten: as long as no submission of that event under that name was accepted since
      it was recorded, it is in the queue, a retry pass holds it, or an earlier step of the run gave it up, by
      interrupting the pass that held it or by a hard bound on the queue. */
  lemma NoFailureIsForgotten(cfg: Config, states: seq<State>, steps: seq<Step>, i: nat,
      e: EventEnvelope, trigger: string)
    requires GoodConfig(cfg) && Execution(cfg, states, steps) && i < |states|
    requires IsOpen(states, steps, i, (e, trigger))
    ensures
      || IsQueued(states[i].queue, e, trigger)
      || IsHeld(cfg, states[i].tasks, (e, trigger))
      || WasDropped(cfg, states, steps, i, (e, trigger))
  {
    InvHolds(cfg, states, steps, i);
    var s := states[i];
    OpenIffUnanswered(cfg, states, steps, i, (e, trigger));
    assert Accounted(cfg, s, (e, trigger));
    if (e, trigger) in s.dropped {
      DroppedIffGivenUp(cfg, states, steps, i, (e, trigger));
    }
  }

  // ------------------------------------------------------------------ the asynchronous path

  /** The asynchronous path conserves events: the channel is what was sent and not yet received, in order, and
      within its capacity; every event accepted since the last start waits to be sent or is held by the dispatcher,
      is in the channel, is finished with every trigger dealt with, or was left to a restart; and whatever became of
      it, left or cut off by a crash, every event ever accepted is safe. */
  lemma AsynchronousPathConserves(cfg: Config, states: seq<State>, steps: seq<Step>, j: nat, i: nat, e: EventEnvelope)
    requires GoodConfig(cfg) && Execution(cfg, states, steps) && j <= i < |states|
    ensures
      var s := states[i];
      && s.sent == s.received + s.channel && |s.channel| <= cfg.capacity
      && (e in s.accepted ==>
            || (exists t :: t in s.tasks && e in Accepted(s.tasks[t]))
            || e in s.channel || e in s.finished || e in s.left)
      && (e in s.finished ==> AllDealtWith(cfg, states, steps, i, e))
      && (e in s.left || e in states[j].accepted ==> IsSafe(cfg, states, steps, i, e))
  {
    InvHolds(cfg, states, steps, i);
    var s := states[i];
    if e in s.finished {
      DoneIsDealtWith(cfg, states, steps, i, e);
    }
    if e in s.left {
      NoAcknowledgedEventIsLost(cfg, states, steps, i, e);
    } else if e in states[j].accepted {
      InvHolds(cfg, states, steps, j);
      StoredStays(cfg, states, steps, j, i);
      NoAcknowledgedEventIsLost(cfg, states, steps, i, e);
    }
  }
}
