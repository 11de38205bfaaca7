/** The operations that handle events and mark them, seen as steps of the delivery protocol. */
module OperationSteps {
  import opened Base
  import opened Jsonl
  import opened Retention
  import opened JsonlStores
  import opened EventStores
  import opened Registry
  import opened Runtime
  import opened TriggerRuntimes
  import opened Ingest
  import opened Delivery
  import opened DeliveryPaths
  import opened HandlingSteps

  /** The protocol state shows the store's events and delivered ids; the files hold at least those. */
  ghost predicate ShowsStore(s: State, v: StoreState) {
    && s.log == v.events && s.delivered == v.delivered
    && Elements(v.events) <= Elements(s.disk) && v.delivered <= Elements(s.journal)
  }

  /** Task `t` has finished with the event: it is at the next planned event, back at the channel, or gone; and a
      recovery that is gone has opened the server. */
  ghost predicate MovedOn(cfg: Config, s: State, t: nat, plan: Plan) {
    if plan.rest != [] then
      IsAt(s, t, plan.rest[0], cfg.Matching(plan.rest[0]), 0, Plan(plan.purpose, plan.rest[1..]))
    else GaveUp(s, t, plan.purpose) && (plan.purpose.ForRecovery? ==> s.phase.Serving?)
  }

  /** Marking touches only the journal and the set. */
  ghost predicate OnlyMarks(s: State, after: State, t: nat) {
    && after.disk == s.disk && after.log == s.log && after.jobs == s.jobs && after.queue == s.queue
    && after.facts == s.facts
    && after.bounded == s.bounded && after.channel == s.channel && after.tasks - {t} == s.tasks - {t}
    && (after.phase == s.phase || after.phase.Serving?)
  }

  /** Marking an event delivered is a run of steps: none in the journal if the id is known, else a journal write,
      which may fail before or after the line is in the file, and the insertion into the set. */
  lemma MarkingIsARunOfSteps(cfg: Config, t: nat, s: State, v: StoreState, e: EventEnvelope, plan: Plan, io: AppendIo)
      returns (steps: seq<Step>, after: State)
    requires IsAt(s, t, e, [], 0, plan) && plan.purpose.Marks() && ShowsStore(s, v)
    ensures Leads(cfg, t, s, steps, after) && OnlyMarks(s, after, t)
    ensures
      if e.id in v.delivered || io.Appended? then ShowsStore(after, v.Mark(e.id)) && MovedOn(cfg, after, t, plan)
      else ShowsStore(after, v) && GaveUp(after, t, plan.purpose) && after.phase == s.phase
    ensures after.journal == if e.id in v.delivered || io.WriteFails? then s.journal else s.journal + [e.id]
    ensures after.phase == s.phase || (plan.purpose.ForRecovery? && plan.rest == [])
  {
    var checking := Put(s, t, Marking(e, CheckSet, plan));
    MarkBegins(cfg, t, s, e, plan);
    CheckIs(cfg, t, checking, e, plan);
    hide Apply, Enabled, Leads, Elements;
    LeadsByOne(cfg, t, s, Handled(t));
    if e.id in v.delivered {
      after := Proceed(cfg, checking, t, e, plan);
      assert v.delivered + {e.id} == v.delivered;
      LeadsByOne(cfg, t, checking, MarkCheck(t));
      LeadsOn(cfg, t, s, [Handled(t)], checking, [MarkCheck(t)], after);
      steps := [Handled(t)] + [MarkCheck(t)];
    } else {
      var writing := Put(checking, t, Marking(e, WriteJournal, plan));
      LeadsByOne(cfg, t, checking, MarkCheck(t));
      LeadsOn(cfg, t, s, [Handled(t)], checking, [MarkCheck(t)], writing);
      var rest;
      rest, after := WriteSteps(cfg, t, writing, v, e, plan, io);
      LeadsOn(cfg, t, s, [Handled(t)] + [MarkCheck(t)], writing, rest, after);
      steps := [Handled(t)] + [MarkCheck(t)] + rest;
    }
  }

  /** One more id in the journal and in the set. */
  lemma MarkedShows(s: State, after: State, v: StoreState, id: EventId)
    requires ShowsStore(s, v) && after.disk == s.disk && after.log == s.log
    requires after.journal == s.journal + [id] && after.delivered == s.delivered + {id}
    ensures ShowsStore(after, v.Mark(id))
  {
    LongerElements(s.journal, id);
  }

  /** The files may hold more than the store knows. */
  lemma MoreIsWritten(s: State, after: State, v: StoreState)
    requires ShowsStore(s, v) && after.log == s.log && after.delivered == s.delivered
    requires s.disk <= after.disk && s.journal <= after.journal
    ensures ShowsStore(after, v)
  {
    assert forall e :: e in s.disk ==> e in after.disk;
    assert forall id :: id in s.journal ==> id in after.journal;
  }

  lemma WriteSteps(cfg: Config, t: nat, s: State, v: StoreState, e: EventEnvelope, plan: Plan, io: AppendIo)
      returns (steps: seq<Step>, after: State)
    requires !s.phase.Down? && t in s.tasks && s.tasks[t] == Marking(e, WriteJournal, plan) && ShowsStore(s, v)
    ensures Leads(cfg, t, s, steps, after) && OnlyMarks(s, after, t)
    ensures
      if io.Appended? then ShowsStore(after, v.Mark(e.id)) && MovedOn(cfg, after, t, plan)
      else ShowsStore(after, v) && GaveUp(after, t, plan.purpose) && after.phase == s.phase
    ensures after.journal == if io.WriteFails? then s.journal else s.journal + [e.id]
    ensures after.phase == s.phase || (plan.purpose.ForRecovery? && plan.rest == [])
  {
    var step := MarkJournal(t, io.Appended?, io.SyncFails?);
    var written := Apply(cfg, s, step);
    LeadsByOne(cfg, t, s, step);
    WriteIs(cfg, t, s, e, plan, io.Appended?, io.SyncFails?);
    hide ShowsStore, Leads, Elements, Apply, Held, Accepted;
    if io.Appended? {
      after := Proceed(cfg, written.(delivered := written.delivered + {e.id}), t, e, plan);
      InsertIs(cfg, t, written, e, plan);
      MarkedShows(s, after, v, e.id);
      LeadsByOne(cfg, t, written, MarkInsert(t));
      LeadsOn(cfg, t, s, [step], written, [MarkInsert(t)], after);
      steps := [step] + [MarkInsert(t)];
    } else {
      steps, after := [step], written;
      MoreIsWritten(s, after, v);
    }
  }

  lemma MarkBegins(cfg: Config, t: nat, s: State, e: EventEnvelope, plan: Plan)
    requires IsAt(s, t, e, [], 0, plan) && plan.purpose.Marks()
    ensures Enabled(cfg, s, Handled(t)) && Apply(cfg, s, Handled(t)) == Put(s, t, Marking(e, CheckSet, plan))
  {
  }

  lemma CheckIs(cfg: Config, t: nat, s: State, e: EventEnvelope, plan: Plan)
    requires !s.phase.Down? && t in s.tasks && s.tasks[t] == Marking(e, CheckSet, plan)
    ensures Enabled(cfg, s, MarkCheck(t))
    ensures Apply(cfg, s, MarkCheck(t)) == if e.id in s.delivered then Proceed(cfg, s, t, e, plan)
                                           else Put(s, t, Marking(e, WriteJournal, plan))
  {
  }

  lemma WriteIs(cfg: Config, t: nat, s: State, e: EventEnvelope, plan: Plan, written: bool, landed: bool)
    requires !s.phase.Down? && t in s.tasks && s.tasks[t] == Marking(e, WriteJournal, plan)
    ensures
      var step := MarkJournal(t, written, landed);
      var longer := s.journal + [e.id];
      && Enabled(cfg, s, step)
      && Apply(cfg, s, step) == if written then Put(s, t, Marking(e, InsertInSet, plan)).(journal := longer)
                                else Fail(cfg, s, t).(journal := if landed then longer else s.journal)
  {
  }

  lemma InsertIs(cfg: Config, t: nat, s: State, e: EventEnvelope, plan: Plan)
    requires !s.phase.Down? && t in s.tasks && s.tasks[t] == Marking(e, InsertInSet, plan)
    ensures Enabled(cfg, s, MarkInsert(t))
    ensures Apply(cfg, s, MarkInsert(t)) == Proceed(cfg, s.(delivered := s.delivered + {e.id}), t, e, plan)
  {
  }

  lemma LongerElements<T>(s: seq<T>, x: T)
    ensures Elements(s + [x]) == Elements(s) + {x}
  {
  }

  /** Handling an event and marking it is a run of steps, with the outcome `Dispatch` has. */
  lemma DispatchingIsARunOfSteps(cfg: Config, ctx: Context, t: nat, s: State, w: World, v: StoreState,
      e: EventEnvelope, plan: Plan, io: AppendIo)
      returns (steps: seq<Step>, after: State)
    requires SameSettings(cfg, ctx) && Shows(s, w) && ShowsStore(s, v)
    requires IsAt(s, t, e, cfg.Matching(e), 0, plan) && plan.purpose.Marks()
    ensures Leads(cfg, t, s, steps, after) && Quiet(s, after, t)
    ensures
      var (handled, result) := Handle(ctx, e, w);
      && Shows(after, handled)
      && if result.Ok? && (e.id in v.delivered || io.Appended?) then
           ShowsStore(after, v.Mark(e.id)) && MovedOn(cfg, after, t, plan)
         else ShowsStore(after, v) && GaveUp(after, t, plan.purpose) && after.phase == s.phase
    ensures after.phase == s.phase || (plan.purpose.ForRecovery? && plan.rest == [])
  {
    steps, after := HandlingIsARunOfSteps(cfg, ctx, t, s, w, e, plan);
    hide Handle, Leads, Shows, IsAt, SameSettings;
    var (handled, result) := Handle(ctx, e, w);
    if result.Ok? {
      var middle, more := after, [];
      more, after := MarkingIsARunOfSteps(cfg, t, middle, v, e, plan, io);
      LeadsOn(cfg, t, s, steps, middle, more, after);
      SameBroker(middle, after, handled);
      steps := steps + more;
    }
  }

  lemma SameBroker(s: State, after: State, w: World)
    requires Shows(s, w) && after.jobs == s.jobs && after.queue == s.queue
    ensures Shows(after, w)
  {
  }

  /** Other tasks, the channel and the history of stored and removed events stay; new failures are in the queue. */
  ghost predicate Quiet(s: State, after: State, t: nat) {
    && after.disk == s.disk && after.channel == s.channel && after.bounded == s.bounded
    && after.facts.stored == s.facts.stored && after.tasks - {t} == s.tasks - {t}
    && forall p :: p in after.facts.dead ==> p in s.facts.dead || IsQueued(after.queue, p.0, p.1)
  }

  /** Ingesting an event that is not a duplicate is a run of steps of one task, with the outcome `IngestEvent` has
      for every answer of the broker, the queue and the files; the event's line is on disk also when only the sync of
      the append failed. */
  lemma IngestingIsARunOfSteps(cfg: Config, ctx: Context, t: nat, s: State, w: World, v: StoreState,
      e: EventEnvelope, logIo: AppendIo, journalIo: AppendIo)
      returns (steps: seq<Step>, after: State)
    requires SameSettings(cfg, ctx) && Shows(s, w) && ShowsStore(s, v)
    requires Opens(s, t) && Existing(v.events, e).None? && IdNamesEvent(s, e)
    ensures Leads(cfg, t, s, steps, after) && after.tasks == s.tasks && after.phase == s.phase
    ensures after.channel == s.channel && after.disk == if logIo.WriteFails? then s.disk else s.disk + [e]
    ensures after.bounded == if logIo.Appended? then s.bounded - {e} else s.bounded
    ensures forall p :: p in after.facts.dead ==> p in s.facts.dead || IsQueued(after.queue, p.0, p.1)
    ensures
      var appended := StoreState(v.events + [e], v.delivered);
      var (handled, result) := Handle(ctx, e, w);
      if !logIo.Appended? then Shows(after, w) && ShowsStore(after, v) && after.facts.stored == s.facts.stored
      else
        && Shows(after, handled) && after.facts.stored == s.facts.stored + {e}
        && ShowsStore(after, if result.Ok? && (e.id in v.delivered || journalIo.Appended?) then appended.Mark(e.id)
                             else appended)
  {
    var started := Put(s, t, Ingesting(e, false));
    var start := StartIngest(t, e, false);
    IngestBegins(cfg, t, s, e);
    LeadsByOne(cfg, t, s, start);
    assert started.tasks - {t} == s.tasks - {t} == s.tasks;
    hide Leads, Shows, SameSettings, Handle, Apply, Enabled;
    if !logIo.Appended? {
      var fail := AppendFails(t, logIo.SyncFails?);
      after := End(started, t).(disk := if logIo.SyncFails? then s.disk + [e] else s.disk);
      IngestFails(cfg, t, started, e, logIo.SyncFails?);
      MoreIsWritten(s, after, v);
      SameBroker(s, after, w);
      LeadsByOne(cfg, t, started, fail);
      LeadsOn(cfg, t, s, [start], started, [fail], after);
      steps := [start] + [fail];
    } else {
      var appended := Apply(cfg, started, Step.Append(t));
      AppendedStands(cfg, t, started, v, e);
      LeadsByOne(cfg, t, started, Step.Append(t));
      LeadsOn(cfg, t, s, [start], started, [Step.Append(t)], appended);
      SameBroker(s, appended, w);
      var more;
      more, after := DispatchingIsARunOfSteps(cfg, ctx, t, appended, w, StoreState(v.events + [e], v.delivered), e,
                                              Plan(ForIngest, []), journalIo);
      LeadsOn(cfg, t, s, [start] + [Step.Append(t)], appended, more, after);
      assert after.tasks - {t} == after.tasks;
      steps := [start] + [Step.Append(t)] + more;
    }
  }

  lemma IngestBegins(cfg: Config, t: nat, s: State, e: EventEnvelope)
    requires Opens(s, t) && Existing(s.log, e).None?
    ensures
      var start := StartIngest(t, e, false);
      Enabled(cfg, s, start) && Apply(cfg, s, start) == Put(s, t, Ingesting(e, false))
  {
  }

  lemma IngestFails(cfg: Config, t: nat, s: State, e: EventEnvelope, landed: bool)
    requires Runs(s, t) && s.tasks[t] == Ingesting(e, false) && IdNamesEvent(s, e)
    ensures
      var fail := AppendFails(t, landed);
      && Enabled(cfg, s, fail)
      && Apply(cfg, s, fail) == End(s, t).(disk := if landed then s.disk + [e] else s.disk)
  {
  }

  lemma AppendedStands(cfg: Config, t: nat, s: State, v: StoreState, e: EventEnvelope)
    requires Runs(s, t) && s.tasks[t] == Ingesting(e, false) && IdNamesEvent(s, e) && ShowsStore(s, v)
    ensures
      var after := Apply(cfg, s, Step.Append(t));
      && Enabled(cfg, s, Step.Append(t))
      && ShowsStore(after, StoreState(v.events + [e], v.delivered))
      && IsAt(after, t, e, cfg.Matching(e), 0, Plan(ForIngest, []))
      && after == s.(disk := s.disk + [e], log := s.log + [e], bounded := s.bounded - {e},
                     facts := s.facts.(stored := s.facts.stored + {e}), tasks := after.tasks)
      && after.tasks - {t} == s.tasks - {t}
  {
    LongerElements(s.disk, e);
    LongerElements(s.log, e);
  }

  /** The fast half of an asynchronous ingest is a run of steps, with the outcome `Accept` has: the event is stored and
      waits to be sent, or its append failed. */
  lemma AcceptingIsARunOfSteps(cfg: Config, t: nat, s: State, v: StoreState, e: EventEnvelope, logIo: AppendIo)
      returns (steps: seq<Step>, after: State)
    requires Opens(s, t) && ShowsStore(s, v) && Existing(v.events, e).None? && IdNamesEvent(s, e)
    ensures Leads(cfg, t, s, steps, after) && after.jobs == s.jobs && after.queue == s.queue && after.phase == s.phase
    ensures after.disk == if logIo.WriteFails? then s.disk else s.disk + [e]
    ensures
      if logIo.Appended? then
        && ShowsStore(after, StoreState(v.events + [e], v.delivered))
        && after.tasks == s.tasks[t := Sending(e)] && e in after.facts.stored && e in after.accepted
      else ShowsStore(after, v) && after.tasks == s.tasks
  {
    var start, started := StartIngest(t, e, true), Put(s, t, Ingesting(e, true));
    var step := if logIo.Appended? then Step.Append(t) else AppendFails(t, logIo.SyncFails?);
    AcceptBegins(cfg, t, s, e);
    AcceptEnds(cfg, t, started, e, logIo);
    hide Apply, Enabled, Leads, ShowsStore;
    after := Apply(cfg, started, step);
    LeadsByOne(cfg, t, s, start);
    LeadsByOne(cfg, t, started, step);
    LeadsOn(cfg, t, s, [start], started, [step], after);
    steps := [start] + [step];
    if logIo.Appended? {
      AppendedShows(s, after, v, e);
    } else {
      assert started.tasks - {t} == s.tasks;
      MoreIsWritten(s, after, v);
    }
  }

  lemma AcceptBegins(cfg: Config, t: nat, s: State, e: EventEnvelope)
    requires Opens(s, t) && Existing(s.log, e).None?
    ensures
      var start := StartIngest(t, e, true);
      Enabled(cfg, s, start) && Apply(cfg, s, start) == Put(s, t, Ingesting(e, true))
  {
  }

  lemma AcceptEnds(cfg: Config, t: nat, s: State, e: EventEnvelope, logIo: AppendIo)
    requires Runs(s, t) && s.tasks[t] == Ingesting(e, true) && IdNamesEvent(s, e)
    ensures
      var step := if logIo.Appended? then Step.Append(t) else AppendFails(t, logIo.SyncFails?);
      && Enabled(cfg, s, step)
      && Apply(cfg, s, step)
         == if logIo.Appended? then
              Put(s, t, Sending(e)).(disk := s.disk + [e], log := s.log + [e], bounded := s.bounded - {e},
                                     facts := s.facts.(stored := s.facts.stored + {e}), accepted := s.accepted + {e})
            else End(s, t).(disk := if logIo.SyncFails? then s.disk + [e] else s.disk)
  {
  }

  lemma AppendedShows(s: State, after: State, v: StoreState, e: EventEnvelope)
    requires ShowsStore(s, v) && after.disk == s.disk + [e] && after.log == s.log + [e]
    requires after.journal == s.journal && after.delivered == s.delivered
    ensures ShowsStore(after, StoreState(v.events + [e], v.delivered))
  {
    LongerElements(s.disk, e);
    LongerElements(s.log, e);
  }

  /** What recovery has done to the store after marking the first `n` pending events. */
  function MarkedFirst(v: StoreState, pending: seq<EventEnvelope>, n: nat): StoreState
    requires n <= |pending|
  {
    StoreState(v.events, v.delivered + Ids(pending[..n]))
  }

  lemma MarkedOneMore(v: StoreState, pending: seq<EventEnvelope>, n: nat)
    requires pending != [] && n <= |pending| - 1
    ensures MarkedFirst(v.Mark(pending[0].id), pending[1..], n) == MarkedFirst(v, pending, n + 1)
  {
    assert pending[..n + 1] == [pending[0]] + pending[1..][..n];
  }

  lemma TriedOneMore(ctx: Context, pending: seq<EventEnvelope>, n: nat, w: World)
    requires pending != [] && n <= |pending| - 1 && Handle(ctx, pending[0], w).1.Ok?
    ensures HandleEach(ctx, Tried(pending, n + 1), w).0
         == HandleEach(ctx, Tried(pending[1..], n), Handle(ctx, pending[0], w).0).0
  {
    var tried := Tried(pending, n + 1);
    assert tried[0] == pending[0] && tried[1..] == Tried(pending[1..], n);
  }

  lemma TriedOne(ctx: Context, pending: seq<EventEnvelope>, w: World)
    requires pending != []
    ensures HandleEach(ctx, Tried(pending, 0), w).0 == Handle(ctx, pending[0], w).0
  {
    assert Tried(pending, 0) == [pending[0]];
    assert [pending[0]][1..] == [];
  }

  /** Startup recovery is a run of steps of one task, with the outcome `RecoverUndelivered` has: the first `n` pending
      events are marked, and the server opens if and only if that is all of them. */
  lemma {:induction false} RecoveringIsARunOfSteps(cfg: Config, ctx: Context, t: nat, s: State, w: World, v: StoreState,
      pending: seq<EventEnvelope>, faults: nat -> AppendIo, i: nat)
      returns (steps: seq<Step>, after: State, n: nat)
    requires SameSettings(cfg, ctx) && Shows(s, w) && ShowsStore(s, v) && s.phase.Starting? && pending != []
    requires IsAt(s, t, pending[0], cfg.Matching(pending[0]), 0, Plan(ForRecovery, pending[1..]))
    ensures Leads(cfg, t, s, steps, after) && n <= |pending| && t !in after.tasks
    ensures Shows(after, HandleEach(ctx, Tried(pending, n), w).0)
    ensures ShowsStore(after, MarkedFirst(v, pending, n))
    ensures after.phase.Serving? <==> n == |pending|
    decreases |pending|
  {
    var e, plan := pending[0], Plan(ForRecovery, pending[1..]);
    steps, after := DispatchingIsARunOfSteps(cfg, ctx, t, s, w, v, e, plan, faults(i));
    hide Leads, Shows, SameSettings, Handle, HandleEach, ShowsStore, IsAt, Tried;
    var (handled, result) := Handle(ctx, e, w);
    if result.Ok? && (e.id in v.delivered || faults(i).Appended?) {
      if plan.rest == [] {
        n := 1;
        MarkedOneMore(v, pending, 0);
        AllTried(ctx, pending, w);
        assert MarkedFirst(v.Mark(e.id), [], 0) == v.Mark(e.id);
      } else {
        var middle, more := after, [];
        more, after, n := RecoveringIsARunOfSteps(cfg, ctx, t, middle, handled, v.Mark(e.id), plan.rest, faults, i + 1);
        LeadsOn(cfg, t, s, steps, middle, more, after);
        MarkedOneMore(v, pending, n);
        TriedOneMore(ctx, pending, n, w);
        steps, n := steps + more, n + 1;
      }
    } else {
      n := 0;
      TriedOne(ctx, pending, w);
      assert MarkedFirst(v, pending, 0) == v;
    }
  }

  lemma AllTried(ctx: Context, pending: seq<EventEnvelope>, w: World)
    requires |pending| == 1 && Handle(ctx, pending[0], w).1.Ok?
    ensures HandleEach(ctx, Tried(pending, 1), w).0 == Handle(ctx, pending[0], w).0
  {
    assert pending[1..] == [];
  }

  /** A crash and a restart leave what reopening the files yields: the log as it is on disk, and as delivered the ids in
      the journal. */
  lemma RestartReopens(cfg: Config, c: Codec<EventEnvelope>, s: State, command: bool)
    requires GoodCodec(c) && !s.phase.Down?
    ensures
      var crashed := Apply(cfg, s, Crash);
      var after := Apply(cfg, crashed, Restart(command));
      && Enabled(cfg, s, Crash) && Enabled(cfg, crashed, Restart(command))
      && Reopen(c, Image(EncodeAll(c, s.disk), EncodeAll(IdCodec, s.journal)))
         == Ok(StoreState(after.log, after.delivered))
      && after.queue == s.queue && after.jobs == s.jobs && after.tasks == map[]
      && after.phase == if command then Command else Starting
  {
    hide GoodCodec, EncodeAll, Reopen, Held;
    ReopensClean(c, s.disk, s.journal);
  }

  /** A starting server's recovery, from its first step to its last, has the outcome of `RecoverUndelivered`: the
      undelivered events are handled in order, the first `n` are marked, and the server opens if and only if that is
      all of them. */
  lemma StartupIsARunOfSteps(cfg: Config, ctx: Context, t: nat, s: State, w: World, v: StoreState,
      faults: nat -> AppendIo)
      returns (steps: seq<Step>, after: State, n: nat)
    requires SameSettings(cfg, ctx) && Shows(s, w) && ShowsStore(s, v) && s.phase.Starting? && s.tasks == map[]
    ensures Leads(cfg, t, s, steps, after) && n <= |v.Undelivered()| && t !in after.tasks
    ensures Shows(after, HandleEach(ctx, Tried(v.Undelivered(), n), w).0)
    ensures ShowsStore(after, MarkedFirst(v, v.Undelivered(), n))
    ensures after.phase.Serving? <==> n == |v.Undelivered()|
  {
    var pending := v.Undelivered();
    RecoveryBegins(cfg, t, s, v);
    LeadsByOne(cfg, t, s, StartRecovery(t));
    hide Apply, Enabled, Leads, SameSettings, Handle, HandleEach;
    if pending == [] {
      steps, after, n := [StartRecovery(t)], s.(phase := Serving), 0;
      assert Tried([], 0) == [] && MarkedFirst(v, [], 0) == v;
      assert HandleEach(ctx, [], w).0 == w by { NothingHandled(ctx, w); }
    } else {
      var started := Put(s, t, FirstTask(cfg, pending, ForRecovery));
      SameBroker(s, started, w);
      var more;
      more, after, n := RecoveringIsARunOfSteps(cfg, ctx, t, started, w, v, pending, faults, 0);
      LeadsOn(cfg, t, s, [StartRecovery(t)], started, more, after);
      steps := [StartRecovery(t)] + more;
    }
  }

  lemma NothingHandled(ctx: Context, w: World)
    ensures HandleEach(ctx, [], w).0 == w
  {
  }

  lemma RecoveryBegins(cfg: Config, t: nat, s: State, v: StoreState)
    requires ShowsStore(s, v) && s.phase.Starting? && s.tasks == map[]
    ensures Enabled(cfg, s, StartRecovery(t))
    ensures Apply(cfg, s, StartRecovery(t))
         == if v.Undelivered() == [] then s.(phase := Serving)
            else Put(s, t, FirstTask(cfg, v.Undelivered(), ForRecovery))
  {
  }

  /** The dispatcher takes the next event off the channel, handles and marks it: a run of steps with the outcome of
      `Dispatch`, after which the dispatcher is back at the channel. */
  lemma ReceivingIsARunOfSteps(cfg: Config, ctx: Context, t: nat, s: State, w: World, v: StoreState, io: AppendIo)
      returns (steps: seq<Step>, after: State)
    requires SameSettings(cfg, ctx) && Shows(s, w) && ShowsStore(s, v)
    requires !s.phase.Down? && t in s.tasks && s.tasks[t] == Receiving && s.channel != []
    ensures Leads(cfg, t, s, steps, after) && after.channel == s.channel[1..]
    ensures t in after.tasks && after.tasks[t] == Receiving && after.phase == s.phase
    ensures
      var e := s.channel[0];
      var (handled, result) := Handle(ctx, e, w);
      && Shows(after, handled)
      && ShowsStore(after, if result.Ok? && (e.id in v.delivered || io.Appended?) then v.Mark(e.id) else v)
  {
    var e, plan := s.channel[0], Plan(ForDispatch, []);
    var taken := Put(s, t, FirstTask(cfg, [e], ForDispatch)).(channel := s.channel[1..], received := s.received + [e]);
    ReceiveIs(cfg, t, s);
    LeadsByOne(cfg, t, s, Receive(t));
    SameBroker(s, taken, w);
    assert [e][1..] == [];
    hide Apply, Enabled, Leads, SameSettings, Handle, Shows;
    var more;
    more, after := DispatchingIsARunOfSteps(cfg, ctx, t, taken, w, v, e, plan, io);
    LeadsOn(cfg, t, s, [Receive(t)], taken, more, after);
    steps := [Receive(t)] + more;
  }

  lemma ReceiveIs(cfg: Config, t: nat, s: State)
    requires !s.phase.Down? && t in s.tasks && s.tasks[t] == Receiving && s.channel != []
    ensures Enabled(cfg, s, Receive(t))
    ensures Apply(cfg, s, Receive(t))
         == Put(s, t, FirstTask(cfg, [s.channel[0]], ForDispatch))
              .(channel := s.channel[1..], received := s.received + [s.channel[0]])
  {
  }

  // ------------------------------------------------------------------ replay and retry

  /** Handling planned events one after the other without marking them is a run of steps with the outcome of
      `HandleEach`; the task is gone at its end. */
  lemma {:induction false} PassIsARunOfSteps(cfg: Config, ctx: Context, t: nat, s: State, w: World,
      events: seq<EventEnvelope>, purpose: Purpose)
      returns (steps: seq<Step>, after: State)
    requires SameSettings(cfg, ctx) && Shows(s, w) && events != [] && (purpose.ForReplay? || purpose.ForRetry?)
    requires IsAt(s, t, events[0], cfg.Matching(events[0]), 0, Plan(purpose, events[1..]))
    ensures Leads(cfg, t, s, steps, after) && Shows(after, HandleEach(ctx, events, w).0) && t !in after.tasks
    ensures after.disk == s.disk && after.log == s.log && after.journal == s.journal && after.delivered == s.delivered
    decreases |events|
  {
    var e, plan := events[0], Plan(purpose, events[1..]);
    steps, after := HandlingIsARunOfSteps(cfg, ctx, t, s, w, e, plan);
    hide Leads, Shows, SameSettings, Handle;
    var (handled, result) := Handle(ctx, e, w);
    if result.Ok? {
      var middle := after;
      after := Proceed(cfg, middle, t, e, plan);
      assert Apply(cfg, middle, Handled(t)) == after;
      LeadsByOne(cfg, t, middle, Handled(t));
      LeadsOn(cfg, t, s, steps, middle, [Handled(t)], after);
      SameBroker(middle, after, handled);
      steps := steps + [Handled(t)];
      if plan.rest == [] {
        assert HandleEach(ctx, [], handled).0 == handled;
      } else {
        var more, last := PassIsARunOfSteps(cfg, ctx, t, after, handled, plan.rest, purpose);
        LeadsOn(cfg, t, s, steps, after, more, last);
        steps, after := steps + more, last;
      }
    }
  }

  /** A replay, from its first step to its last, has the outcome of `HandleEach` on the events it was asked for. */
  lemma ReplayingIsARunOfSteps(cfg: Config, ctx: Context, t: nat, s: State, w: World, events: seq<EventEnvelope>)
      returns (steps: seq<Step>, after: State)
    requires SameSettings(cfg, ctx) && Shows(s, w) && Opens(s, t)
    requires events != [] && forall e :: e in events ==> e in s.log
    ensures Leads(cfg, t, s, steps, after) && Shows(after, HandleEach(ctx, events, w).0) && t !in after.tasks
    ensures after.disk == s.disk && after.log == s.log && after.journal == s.journal && after.delivered == s.delivered
  {
    var started := Put(s, t, FirstTask(cfg, events, ForReplay));
    ReplayBegins(cfg, t, s, events);
    LeadsByOne(cfg, t, s, StartReplay(t, events));
    SameBroker(s, started, w);
    hide Apply, Enabled, Leads, SameSettings, Handle, Shows;
    var more;
    more, after := PassIsARunOfSteps(cfg, ctx, t, started, w, events, ForReplay);
    LeadsOn(cfg, t, s, [StartReplay(t, events)], started, more, after);
    steps := [StartReplay(t, events)] + more;
  }

  lemma ReplayBegins(cfg: Config, t: nat, s: State, events: seq<EventEnvelope>)
    requires Opens(s, t) && events != [] && forall e :: e in events ==> e in s.log
    ensures Enabled(cfg, s, StartReplay(t, events))
    ensures Apply(cfg, s, StartReplay(t, events)) == Put(s, t, FirstTask(cfg, events, ForReplay))
  {
  }

  lemma {:induction false} SameRetried(a: seq<DeadTriggerRecord>, b: seq<DeadTriggerRecord>)
    requires SameQueue(a, b)
    ensures FirstSeen(a) == FirstSeen(b) && RecordIds(a) == RecordIds(b)
    ensures forall id :: id in RecordIds(a) ==> LastEvent(a, id) == LastEvent(b, id)
  {
    if a != [] {
      var x, y := a[..|a| - 1], b[..|b| - 1];
      SameRetried(x, y);
      assert a == x + [a[|a| - 1]] && b == y + [b[|b| - 1]];
      SnocRecord(x, a[|a| - 1]);
      SnocRecord(y, b[|b| - 1]);
    }
  }

  /** A dead-trigger retry is a run of steps of one task: the queue is drained first, then the drained events are
      handled again, with the outcome `RetryDeadTriggers` has. */
  lemma RetryingIsARunOfSteps(cfg: Config, ctx: Context, t: nat, s: State, w: World)
      returns (steps: seq<Step>, after: State)
    requires SameSettings(cfg, ctx) && Shows(s, w) && Opens(s, t) && w.dead != []
    ensures Leads(cfg, t, s, steps, after) && t !in after.tasks
    ensures Shows(after, HandleEach(ctx, Retried(w.dead), w.(dead := [])).0)
  {
    SameRetried(s.queue, w.dead);
    FirstSeenCovers(s.queue);
    FirstSeenCovers(w.dead);
    RetriedIsNotEmpty(s.queue);
    assert Retried(s.queue) == Retried(w.dead);
    var events := Retried(s.queue);
    var started := Put(s, t, FirstTask(cfg, events, ForRetry)).(queue := []);
    assert Apply(cfg, s, StartRetry(t)) == started;
    LeadsByOne(cfg, t, s, StartRetry(t));
    var more;
    more, after := PassIsARunOfSteps(cfg, ctx, t, started, w.(dead := []), events, ForRetry);
    LeadsOn(cfg, t, s, [StartRetry(t)], started, more, after);
    steps := [StartRetry(t)] + more;
  }

  // ------------------------------------------------------------------ sweeps

  /** A sweep alone is a run of steps of one task, with the outcome `EnforceRetention` has; the ids are written in any
      order. */
  lemma SweepingIsARunOfSteps(cfg: Config, t: nat, s: State, v: StoreState, policy: AutoRetention, now: int,
      list: seq<EventId>)
      returns (steps: seq<Step>, after: State)
    requires Opens(s, t) && ShowsStore(s, v) && Elements(list) == v.Swept(policy, now, cfg.size).delivered
    ensures Leads(cfg, t, s, steps, after) && t !in after.tasks
    ensures ShowsStore(after, v.Swept(policy, now, cfg.size))
  {
    if policy.IsUnbounded() {
      LeadsNowhere(cfg, t, s);
      steps, after := [], s;
    } else {
      RetainedMembers(v.events, v.delivered, policy, now, cfg.size);
      hide Retained, Leads;
      var start := StartSweep(t, policy, now);
      var started := Put(s, t, Sweeping(policy, now, s.delivered));
      SweepBegins(cfg, t, s, policy, now);
      LeadsByOne(cfg, t, s, start);
      var swept := Apply(cfg, started, Step.SweepLog(t));
      SweepLogIs(cfg, t, started, policy, now, s.delivered);
      hide Apply, Enabled;
      LeadsByOne(cfg, t, started, Step.SweepLog(t));
      LeadsOn(cfg, t, s, [start], started, [Step.SweepLog(t)], swept);
      steps, after := [start] + [Step.SweepLog(t)], swept;
      if |Retained(v.events, v.delivered, policy, now, cfg.size)| != |v.events| {
        var more;
        more, after := TrimSteps(cfg, t, swept, list);
        LeadsOn(cfg, t, s, steps, swept, more, after);
        steps := steps + more;
      }
    }
  }

  /** A prune is one step, with the outcome `Prune` has. */
  lemma PruningIsAStep(cfg: Config, s: State, v: StoreState, cut: ManualRetention)
    requires ShowsStore(s, v)
    ensures
      var after := Apply(cfg, s, Step.Prune(cut));
      && Enabled(cfg, s, Step.Prune(cut)) && ShowsStore(after, v.Pruned(cut))
      && after.tasks == s.tasks && after.jobs == s.jobs && after.queue == s.queue
  {
    if cut.OlderThan? { FilterLength(AtOrAfter(cut.cutoff, EventTime()), s.log); }
  }

  lemma SweepBegins(cfg: Config, t: nat, s: State, policy: AutoRetention, now: int)
    requires Opens(s, t) && !policy.IsUnbounded()
    ensures
      var start := StartSweep(t, policy, now);
      Enabled(cfg, s, start) && Apply(cfg, s, start) == Put(s, t, Sweeping(policy, now, s.delivered))
  {
  }

  lemma SweepLogIs(cfg: Config, t: nat, s: State, policy: AutoRetention, now: int, snapshot: set<EventId>)
    requires Runs(s, t) && s.tasks[t] == Sweeping(policy, now, snapshot)
    ensures
      var kept := Retained(s.log, snapshot, policy, now, cfg.size);
      var sweep := Step.SweepLog(t);
      && Enabled(cfg, s, sweep)
      && Apply(cfg, s, sweep)
         == if |kept| == |s.log| then End(s, t)
            else Put(s, t, Trimming(snapshot * Ids(kept)))
                   .(disk := kept, log := kept, bounded := s.bounded + BoundedAway(s.log, kept, snapshot))
  {
  }

  lemma TrimIs(cfg: Config, t: nat, s: State, list: seq<EventId>)
    requires Runs(s, t) && s.tasks[t] == Trimming(Elements(list))
    ensures Enabled(cfg, s, Step.TrimJournal(t, list))
    ensures Apply(cfg, s, Step.TrimJournal(t, list)) == Put(s, t, Resetting(Elements(list))).(journal := list)
  {
  }

  lemma TrimSteps(cfg: Config, t: nat, s: State, list: seq<EventId>)
      returns (steps: seq<Step>, after: State)
    requires Runs(s, t) && s.tasks[t] == Trimming(Elements(list))
    ensures Leads(cfg, t, s, steps, after)
    ensures after == End(s, t).(journal := list, delivered := Elements(list))
  {
    hide Leads;
    var trimmed := Put(s, t, Resetting(Elements(list))).(journal := list);
    TrimIs(cfg, t, s, list);
    LeadsByOne(cfg, t, s, Step.TrimJournal(t, list));
    after := End(trimmed, t).(delivered := Elements(list));
    assert Apply(cfg, trimmed, Step.ResetSet(t)) == after;
    LeadsByOne(cfg, t, trimmed, Step.ResetSet(t));
    LeadsOn(cfg, t, s, [Step.TrimJournal(t, list)], trimmed, [Step.ResetSet(t)], after);
    steps := [Step.TrimJournal(t, list)] + [Step.ResetSet(t)];
    assert End(trimmed, t).tasks == End(s, t).tasks;
  }
}
