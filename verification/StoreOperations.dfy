/** One thread alone: each operation of the file store, run through its locks, writes and swaps without interference,
    does to log and delivered set what the store's methods do. */
module StoreOperations {
  import opened Base
  import opened Jsonl
  import opened Retention
  import opened EventStores
  import opened StoreThreads

  /** The steps lead from one machine to the other, each enabled where it is taken. */
  ghost predicate RunsTo(c: Codec<EventEnvelope>, m: Machine, steps: seq<Step>, after: Machine)
    decreases |steps|
  {
    if steps == [] then after == m
    else Enabled(m, steps[0]) && RunsTo(c, Apply(c, m, steps[0]), steps[1..], after)
  }

  lemma {:induction false} RunsOn(c: Codec<EventEnvelope>, m: Machine, steps: seq<Step>, middle: Machine, step: Step)
    requires RunsTo(c, m, steps, middle) && Enabled(middle, step)
    ensures RunsTo(c, m, steps + [step], Apply(c, middle, step))
    decreases |steps|
  {
    hide Apply;
    if steps == [] {
      assert [step][1..] == [] && [] + [step] == [step];
      assert RunsTo(c, Apply(c, m, step), [], Apply(c, middle, step));
    } else {
      assert (steps + [step])[1..] == steps[1..] + [step];
      RunsOn(c, Apply(c, m, steps[0]), steps[1..], middle, step);
    }
  }

  /** What a thread that nothing holds up does next: take the lock it wants, or its work. */
  function Next(c: Codec<EventEnvelope>, s: Store, thread: Thread, list: seq<EventId>): (Store, Thread) {
    if thread.Wants().Some? then (s, thread.Granted()) else Work(c, s, thread, list)
  }

  function After(c: Codec<EventEnvelope>, s: Store, thread: Thread, list: seq<EventId>, n: nat): (Store, Thread)
    decreases n
  {
    if n == 0 || thread.Idle? then (s, thread)
    else
      var (next, moved) := Next(c, s, thread, list);
      After(c, next, moved, list, n - 1)
  }

  /** No other thread holds a lock. */
  ghost predicate Alone(m: Machine, t: nat) {
    forall u :: u in m.threads && u != t ==> m.threads[u].Holds() == {}
  }

  /** Along the way the list is an order of the ids it must hold. */
  ghost predicate ListFits(c: Codec<EventEnvelope>, s: Store, thread: Thread, list: seq<EventId>, n: nat)
    decreases n
  {
    n > 0 ==>
      ListOk(thread, list) && var (next, moved) := Next(c, s, thread, list); ListFits(c, next, moved, list, n - 1)
  }

  /** Going on alone is a run of the machine. */
  lemma {:induction false} AloneIsARun(c: Codec<EventEnvelope>, m: Machine, t: nat, steps: seq<Step>, s: Store,
      thread: Thread, list: seq<EventId>, n: nat)
      returns (all: seq<Step>)
    requires Alone(m, t) && RunsTo(c, m, steps, Machine(s, m.threads[t := thread])) && ListFits(c, s, thread, list, n)
    ensures
      var (end, last) := After(c, s, thread, list, n);
      RunsTo(c, m, all, Machine(end, m.threads[t := last]))
    decreases n
  {
    all := steps;
    if n > 0 && !thread.Idle? {
      var here := Machine(s, m.threads[t := thread]);
      var (next, moved) := Next(c, s, thread, list);
      var step := if thread.Wants().Some? then Acquire(t) else Run(t, list);
      CanGoOn(m, t, s, thread, list);
      RunsOn(c, m, steps, here, step);
      assert m.threads[t := thread][t := moved] == m.threads[t := moved];
      all := AloneIsARun(c, m, t, steps + [step], next, moved, list, n - 1);
    }
  }

  lemma CanGoOn(m: Machine, t: nat, s: Store, thread: Thread, list: seq<EventId>)
    requires Alone(m, t) && !thread.Idle? && ListOk(thread, list)
    ensures Enabled(Machine(s, m.threads[t := thread]), if thread.Wants().Some? then Acquire(t) else Run(t, list))
  {
    if thread.Wants().Some? {
      LocksAreOrdered(thread);
    }
  }

  /** What a store's two lists mean to its callers. */
  function Meant(s: Store): StoreState {
    StoreState(s.log, s.delivered)
  }

  /** Beginning an operation in an idle thread and going on alone. */
  lemma OperationIsARun(c: Codec<EventEnvelope>, m: Machine, t: nat, first: Thread, list: seq<EventId>, n: nat)
      returns (steps: seq<Step>)
    requires Alone(m, t) && (t in m.threads ==> m.threads[t].Idle?) && first.Begins()
    requires
      var begun := Apply(c, m, Begin(t, first)).store;
      ListFits(c, begun, first, list, n) && After(c, begun, first, list, n).1.Idle?
    ensures RunsTo(c, m, steps, Machine(After(c, Apply(c, m, Begin(t, first)).store, first, list, n).0,
                                        m.threads[t := Idle]))
  {
    var begun := Apply(c, m, Begin(t, first));
    assert RunsTo(c, m, [], m);
    RunsOn(c, m, [], m, Begin(t, first));
    steps := AloneIsARun(c, m, t, [] + [Begin(t, first)], begun.store, first, list, n);
  }

  /** Going on alone for `n` steps ends the operation with this store. */
  ghost predicate Ends(c: Codec<EventEnvelope>, s: Store, thread: Thread, list: seq<EventId>, n: nat, end: Store) {
    After(c, s, thread, list, n) == (end, Idle) && ListFits(c, s, thread, list, n)
  }

  lemma EndsNow(c: Codec<EventEnvelope>, s: Store, list: seq<EventId>)
    ensures Ends(c, s, Idle, list, 0, s)
  {
  }

  lemma EndsAfter(c: Codec<EventEnvelope>, s: Store, thread: Thread, list: seq<EventId>, n: nat, next: Store,
      moved: Thread, end: Store)
    requires !thread.Idle? && ListOk(thread, list) && Next(c, s, thread, list) == (next, moved)
    requires Ends(c, next, moved, list, n, end)
    ensures Ends(c, s, thread, list, n + 1, end)
  {
    hide Next;
  }

  lemma EndedIsARun(c: Codec<EventEnvelope>, m: Machine, t: nat, first: Thread, begun: Store, list: seq<EventId>,
      n: nat, end: Store)
      returns (steps: seq<Step>)
    requires Alone(m, t) && (t in m.threads ==> m.threads[t].Idle?) && first.Begins()
    requires begun == Apply(c, m, Begin(t, first)).store && Ends(c, begun, first, list, n, end)
    ensures RunsTo(c, m, steps, Machine(end, m.threads[t := Idle]))
  {
    hide Apply, After, ListFits, RunsTo, Alone;
    steps := OperationIsARun(c, m, t, first, list, n);
  }

  /** An append alone: the event is at the end of the log. */
  lemma AppendAlone(c: Codec<EventEnvelope>, m: Machine, t: nat, e: EventEnvelope)
      returns (steps: seq<Step>, after: Machine)
    requires Alone(m, t) && (t in m.threads ==> m.threads[t].Idle?)
    ensures RunsTo(c, m, steps, after) && after.threads == m.threads[t := Idle]
    ensures Meant(after.store) == StoreState(m.store.log + [e], m.store.delivered)
    ensures after.store.logFile == m.store.logFile + c.encode(e) + [10]
    ensures after.store.journal == m.store.journal && after.store.journalFile == m.store.journalFile
  {
    var s0 := m.store;
    var s1 := s0.(logFile := s0.logFile + Line(c, e));
    var s2 := s1.(log := s1.log + [e], appended := s1.appended + {e});
    EndsNow(c, s2, []);
    hide Ends, RunsTo, Alone;
    EndsAfter(c, s2, AppendUnlock, [], 0, s2, Idle, s2);
    EndsAfter(c, s1, AppendPush(e), [], 1, s2, AppendUnlock, s2);
    EndsAfter(c, s1, AppendLockRecords(e), [], 2, s1, AppendPush(e), s2);
    EndsAfter(c, s0, AppendWrite(e), [], 3, s1, AppendLockRecords(e), s2);
    EndsAfter(c, s0, AppendLock(e), [], 4, s0, AppendWrite(e), s2);
    steps := EndedIsARun(c, m, t, AppendLock(e), s0, [], 5, s2);
    after := Machine(s2, m.threads[t := Idle]);
  }

  ghost predicate SameJournal(before: Store, after: Store) {
    after.journal == before.journal && after.journalFile == before.journalFile
  }

  /** One more line: the id in quotes and a newline. */
  ghost predicate JournalGains(before: Store, after: Store, id: EventId) {
    && after.journal == before.journal + [id]
    && after.journalFile == before.journalFile + IdCodec.encode(id) + [10]
  }

  /** A mark alone: the id is known delivered, and journalled if it was not known. */
  lemma MarkAlone(c: Codec<EventEnvelope>, m: Machine, t: nat, id: EventId)
      returns (steps: seq<Step>, after: Machine)
    requires Alone(m, t) && (t in m.threads ==> m.threads[t].Idle?)
    ensures RunsTo(c, m, steps, after) && after.threads == m.threads[t := Idle]
    ensures Meant(after.store) == Meant(m.store).Mark(id) && after.store.logFile == m.store.logFile
    ensures
      if id in m.store.delivered then SameJournal(m.store, after.store) else JournalGains(m.store, after.store, id)
  {
    hide Ends, RunsTo, Alone;
    var s0 := m.store.(marked := m.store.marked + {id});
    if id in s0.delivered {
      assert s0.delivered + {id} == s0.delivered;
      EndsNow(c, s0, []);
      EndsAfter(c, s0, MarkCheck(id), [], 0, s0, Idle, s0);
      EndsAfter(c, s0, MarkLock(id), [], 1, s0, MarkCheck(id), s0);
      steps := EndedIsARun(c, m, t, MarkLock(id), s0, [], 2, s0);
      after := Machine(s0, m.threads[t := Idle]);
    } else {
      var end := NewMark(c, s0, id);
      EndsAfter(c, s0, MarkCheck(id), [], 7, s0, MarkLockFile(id), end);
      EndsAfter(c, s0, MarkLock(id), [], 8, s0, MarkCheck(id), end);
      steps := EndedIsARun(c, m, t, MarkLock(id), s0, [], 9, end);
      after := Machine(end, m.threads[t := Idle]);
    }
  }

  lemma NewMark(c: Codec<EventEnvelope>, s: Store, id: EventId) returns (end: Store)
    ensures Ends(c, s, MarkLockFile(id), [], 7, end)
    ensures Meant(end) == Meant(s).Mark(id) && end.logFile == s.logFile && JournalGains(s, end, id)
  {
    hide Ends;
    var s1 := s.(journalFile := s.journalFile + Line(IdCodec, id));
    var s2 := s1.(journal := s1.journal + [id]);
    end := s2.(delivered := s2.delivered + {id});
    EndsNow(c, end, []);
    EndsAfter(c, s2, MarkInsert(id), [], 0, end, Idle, end);
    EndsAfter(c, s2, MarkLockSet(id), [], 1, s2, MarkInsert(id), end);
    EndsAfter(c, s2, MarkUnlock(id), [], 2, s2, MarkLockSet(id), end);
    EndsAfter(c, s1, MarkPush(id), [], 3, s2, MarkUnlock(id), end);
    EndsAfter(c, s1, MarkLockRecords(id), [], 4, s1, MarkPush(id), end);
    EndsAfter(c, s, MarkWrite(id), [], 5, s1, MarkLockRecords(id), end);
    EndsAfter(c, s, MarkLockFile(id), [], 6, s, MarkWrite(id), end);
  }

  /** A sweep alone: the swept state, and the files rewritten to it if any event went. */
  lemma SweepAlone(c: Codec<EventEnvelope>, m: Machine, t: nat, policy: AutoRetention, now: int)
      returns (steps: seq<Step>, after: Machine)
    requires Alone(m, t) && (t in m.threads ==> m.threads[t].Idle?) && !policy.IsUnbounded()
    ensures RunsTo(c, m, steps, after) && after.threads == m.threads[t := Idle]
    ensures
      var swept := Meant(m.store).Swept(policy, now, SerializedLength(c));
      && Meant(after.store) == swept
      && if |swept.events| == |m.store.log| then
           after.store.logFile == m.store.logFile && SameJournal(m.store, after.store)
         else
           && after.store.logFile == EncodeAll(c, swept.events)
           && after.store.journalFile == EncodeAll(IdCodec, after.store.journal)
           && Elements(after.store.journal) == swept.delivered
  {
    var s, ids := m.store, m.store.delivered;
    var kept := Retained(s.log, ids, policy, now, SerializedLength(c));
    RetainedMembers(s.log, ids, policy, now, SerializedLength(c));
    hide Retained, EncodeAll, Ends, RunsTo, Alone;
    var list, n: nat, end := [], 1, s;
    if |kept| == |s.log| {
      EndsNow(c, s, []);
      EndsAfter(c, s, SweepCompact(policy, now, ids), [], 0, s, Idle, s);
    } else {
      list, n := SomeOrder(ids * Ids(kept)), 8;
      var swapping := s.(logFile := EncodeAll(c, kept));
      end := Trimmed(c, swapping, policy, now, ids, kept, list);
      EndsAfter(c, s, SweepCompact(policy, now, ids), list, 7, swapping, SweepSwap(policy, now, ids, kept), end);
    }
    EndsAfter(c, s, SweepLockRecords(policy, now, ids), list, n, s, SweepCompact(policy, now, ids), end);
    EndsAfter(c, s, SweepLockFile(policy, now, ids), list, n + 1, s, SweepLockRecords(policy, now, ids), end);
    EndsAfter(c, s, SweepSnapshot(policy, now), list, n + 2, s, SweepLockFile(policy, now, ids), end);
    EndsAfter(c, s, SweepLock(policy, now), list, n + 3, s, SweepSnapshot(policy, now), end);
    steps := EndedIsARun(c, m, t, SweepLock(policy, now), s, list, n + 4, end);
    after := Machine(end, m.threads[t := Idle]);
  }

  lemma Trimmed(c: Codec<EventEnvelope>, s: Store, policy: AutoRetention, now: int, ids: set<EventId>,
      kept: seq<EventEnvelope>, list: seq<EventId>)
      returns (end: Store)
    requires Elements(list) == ids * Ids(kept)
    ensures end.log == kept && end.delivered == ids * Ids(kept) && end.logFile == s.logFile
    ensures end.journal == list && end.journalFile == EncodeAll(IdCodec, list)
    ensures Ends(c, s, SweepSwap(policy, now, ids, kept), list, 7, end)
  {
    hide Ends, EncodeAll;
    var left := Elements(list);
    var s1 := Work(c, s, SweepSwap(policy, now, ids, kept), list).0;
    var s2 := s1.(journalFile := EncodeAll(IdCodec, list));
    var s3 := s2.(journal := list);
    end := s3.(delivered := left);
    EndsNow(c, end, list);
    EndsAfter(c, s3, ResetSet(left), list, 0, end, Idle, end);
    EndsAfter(c, s3, ResetLock(left), list, 1, s3, ResetSet(left), end);
    EndsAfter(c, s2, TrimSwap(list), list, 2, s3, ResetLock(left), end);
    EndsAfter(c, s1, TrimCompact(list), list, 3, s2, TrimSwap(list), end);
    EndsAfter(c, s1, TrimLockRecords(list), list, 4, s1, TrimCompact(list), end);
    EndsAfter(c, s1, TrimLockFile(list), list, 5, s1, TrimLockRecords(list), end);
    EndsAfter(c, s, SweepSwap(policy, now, ids, kept), list, 6, s1, TrimLockFile(list), end);
  }

  /** A prune alone: the pruned state, and the log rewritten to it if any event went. */
  lemma PruneAlone(c: Codec<EventEnvelope>, m: Machine, t: nat, cut: ManualRetention)
      returns (steps: seq<Step>, after: Machine)
    requires Alone(m, t) && (t in m.threads ==> m.threads[t].Idle?)
    ensures RunsTo(c, m, steps, after) && after.threads == m.threads[t := Idle]
    ensures Meant(after.store) == Meant(m.store).Pruned(cut) && SameJournal(m.store, after.store)
    ensures
      var pruned := Meant(m.store).Pruned(cut);
      after.store.logFile
      == if |pruned.events| == |m.store.log| then m.store.logFile else EncodeAll(c, pruned.events)
  {
    var s := m.store;
    var kept := cut.Keep(s.log, EventTime());
    KeepAll(cut, s.log);
    hide EncodeAll, Ends, RunsTo, Alone;
    var n: nat, end := 1, s;
    if |kept| == |s.log| {
      EndsNow(c, s, []);
      EndsAfter(c, s, PruneCompact(cut), [], 0, s, Idle, s);
    } else {
      var swapping := s.(logFile := EncodeAll(c, kept));
      n, end := 2, Work(c, swapping, PruneSwap(kept), []).0;
      EndsNow(c, end, []);
      EndsAfter(c, swapping, PruneSwap(kept), [], 0, end, Idle, end);
      EndsAfter(c, s, PruneCompact(cut), [], 1, swapping, PruneSwap(kept), end);
    }
    EndsAfter(c, s, PruneLockRecords(cut), [], n, s, PruneCompact(cut), end);
    EndsAfter(c, s, PruneLock(cut), [], n + 1, s, PruneLockRecords(cut), end);
    steps := EndedIsARun(c, m, t, PruneLock(cut), s, [], n + 2, end);
    after := Machine(end, m.threads[t := Idle]);
  }
}
