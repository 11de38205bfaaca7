/** The two event stores: in memory, and the log file with its delivered-ids journal beside it. */
module EventStores {
  import opened Base
  import opened Jsonl
  import opened Retention
  import opened JsonlStores

  /** What a store means: the retained events, in append order, and the ids known delivered. */
  datatype StoreState = StoreState(events: seq<EventEnvelope>, delivered: set<EventId>)
  {
    function Undelivered(): seq<EventEnvelope> {
      Filter(NotIn(delivered), events)
    }

    function Mark(id: EventId): StoreState {
      StoreState(events, delivered + {id})
    }

    function Swept(policy: AutoRetention, now: int, size: EventEnvelope -> nat): StoreState {
      var kept := Retained(events, delivered, policy, now, size);
      if policy.IsUnbounded() || |kept| == |events| then this
      else StoreState(kept, delivered * Ids(kept))
    }

    function Pruned(policy: ManualRetention): StoreState {
      StoreState(policy.Keep(events, EventTime()), delivered)
    }
  }

  function NotIn(delivered: set<EventId>): EventEnvelope -> bool {
    (event: EventEnvelope) => event.id !in delivered
  }

  function HasId(id: EventId): EventEnvelope -> bool {
    (event: EventEnvelope) => event.id == id
  }

  function HasKey(key: string): EventEnvelope -> bool {
    (event: EventEnvelope) => event.metadata.idempotencyKey == Some(key)
  }

  function Ids(events: seq<EventEnvelope>): set<EventId> {
    set e | e in events :: e.id
  }

  class InMemoryEventStore {
    var events: seq<EventEnvelope>
    var delivered: set<EventId>

    constructor ()
      ensures View() == StoreState([], {})
    {
      events, delivered := [], {};
    }

    function View(): StoreState
      reads this
    {
      StoreState(events, delivered)
    }

    method Append(event: EventEnvelope)
      modifies this
      ensures View() == old(StoreState(events + [event], delivered))
    {
      events := events + [event];
    }

    method MarkDelivered(id: EventId)
      modifies this
      ensures View() == old(View()).Mark(id)
      ensures events == old(events) && delivered == old(delivered) + {id}
    {
      delivered := delivered + {id};
    }

    method EnforceRetention(policy: AutoRetention, now: int, size: EventEnvelope -> nat) returns (removed: nat)
      modifies this
      ensures View() == old(View()).Swept(policy, now, size)
      ensures removed == |old(events)| - |events|
    {
      if policy.IsUnbounded() {
        return 0;
      }
      var kept := RetainEvents(events, delivered, policy, now, size);
      RetainedMembers(events, delivered, policy, now, size);
      removed := |events| - |kept|;
      if removed > 0 {
        delivered := delivered * Ids(kept);
        events := kept;
      }
    }

    method Prune(policy: ManualRetention) returns (removed: nat)
      modifies this
      ensures View() == old(View()).Pruned(policy)
      ensures removed == |old(events)| - |events|
    {
      var kept := policy.Keep(events, EventTime());
      removed := |events| - |kept|;
      events := kept;
    }

    method Find(p: EventEnvelope -> bool) returns (found: Option<EventEnvelope>)
      ensures found == First(p, events)
    {
      for i := 0 to |events|
        invariant First(p, events) == First(p, events[i..])
      {
        if p(events[i]) {
          return Some(events[i]);
        }
        assert events[i..][1..] == events[i + 1..];
      }
      return None;
    }
  }

  /** The two files on disk. */
  datatype Image = Image(log: seq<byte>, journal: seq<byte>)

  /** What opening the two files yields. */
  function Reopen(c: Codec<EventEnvelope>, image: Image): Result<StoreState, OpenError> {
    match Read(c, image.log)
    case Err(error) => Err(error)
    case Ok(events) =>
      match Read(IdCodec, image.journal)
      case Err(error) => Err(error)
      case Ok(ids) => Ok(StoreState(events, Elements(ids)))
  }

  class FileEventStore {
    const inner: JsonlStore<EventEnvelope>
    const delivered: JsonlStore<EventId>
    var deliveredSet: set<EventId>

    ghost predicate Owned()
      reads this, delivered
    {
      (inner as object) != delivered && delivered.codec == IdCodec
    }

    /** Both files clean, and the cached set is the journal's. */
    ghost predicate Valid()
      reads this, inner, delivered
    {
      && Owned()
      && inner.Clean() && delivered.Clean()
      && deliveredSet == Elements(delivered.records)
    }

    function View(): StoreState
      reads this, inner
    {
      StoreState(inner.records, deliveredSet)
    }

    ghost function Disk(): Image
      reads this, inner, delivered
    {
      Image(inner.file, delivered.file)
    }

    constructor (inner: JsonlStore<EventEnvelope>, delivered: JsonlStore<EventId>)
      requires (inner as object) != delivered && delivered.codec == IdCodec
      ensures this.inner == inner && this.delivered == delivered && Owned()
      ensures View() == StoreState(inner.records, Elements(delivered.records))
    {
      this.inner := inner;
      this.delivered := delivered;
      deliveredSet := Elements(delivered.records);
    }

    static method Open(c: Codec<EventEnvelope>, image: Image) returns (result: Result<FileEventStore, OpenError>)
      ensures result.Ok? ==> fresh(result.value) && fresh(result.value.inner) && fresh(result.value.delivered)
      ensures result.Ok? ==> result.value.Owned() && result.value.inner.codec == c
      ensures result.Ok? ==> result.value.inner.linked && result.value.delivered.linked
      ensures result.Ok? ==> result.value.Disk() == image && Reopen(c, image) == Ok(result.value.View())
      ensures result.Ok? ==> result.value.deliveredSet == Elements(result.value.delivered.records)
      ensures result.Ok? ==> Read(IdCodec, image.journal) == Ok(result.value.delivered.records)
      ensures result.Err? ==> Reopen(c, image) == Err(result.error)
    {
      var log := JsonlStore.Open(c, image.log);
      if log.Err? {
        return Err(log.error);
      }
      var journal := JsonlStore.Open(IdCodec, image.journal);
      if journal.Err? {
        return Err(journal.error);
      }
      var store := new FileEventStore(log.value, journal.value);
      return Ok(store);
    }

    method Append(event: EventEnvelope, io: AppendIo) returns (result: Result<(), IoError>)
      requires Owned()
      modifies inner
      ensures result.Ok? <==> io.Appended?
      ensures View() == if io.Appended? then old(StoreState(inner.records + [event], deliveredSet)) else old(View())
      ensures old(Valid()) && io.Appended? ==> Valid()
    {
      result := inner.Append(event, io);
    }

    method MarkDelivered(id: EventId, io: AppendIo) returns (result: Result<(), IoError>)
      requires Owned()
      modifies this, delivered
      ensures result.Ok? <==> id in old(deliveredSet) || io.Appended?
      ensures View() == if result.Ok? then old(View()).Mark(id) else old(View())
      ensures deliveredSet == if result.Ok? then old(deliveredSet) + {id} else old(deliveredSet)
      ensures old(Valid()) && result.Ok? ==> Valid()
    {
      if id in deliveredSet {
        assert deliveredSet + {id} == deliveredSet;
        return Ok(());
      }
      var appended := delivered.Append(id, io);
      if appended.Err? {
        return Err(appended.error);
      }
      assert old(Valid()) ==> Elements(delivered.records) == Elements(old(delivered.records)) + {id};
      deliveredSet := deliveredSet + {id};
      return Ok(());
    }

    method Undelivered() returns (pending: seq<EventEnvelope>)
      ensures pending == View().Undelivered()
    {
      pending := Filter(NotIn(deliveredSet), inner.records);
    }

    /** One sweep. Whatever goes wrong and wherever it stops, the disk is left as `LeftBySweep` says. */
    method EnforceRetention(policy: AutoRetention, now: int, logIo: CompactIo, journalIo: CompactIo)
        returns (result: Result<nat, IoError>)
      requires Valid()
      modifies this, inner, delivered
      ensures logIo.Compacted? && journalIo.Compacted? ==>
        && result == Ok(|old(inner.records)| - |inner.records|)
        && Valid() && View() == old(View()).Swept(policy, now, SerializedLength(inner.codec))
      ensures LeftBySweep(inner.codec, Disk(), old(View()), old(delivered.records),
                          old(View()).Swept(policy, now, SerializedLength(inner.codec)))
    {
      if policy.IsUnbounded() {
        return Ok(0);
      }
      var snapshot := deliveredSet;
      RetainedMembers(inner.records, snapshot, policy, now, SerializedLength(inner.codec));
      var kept;
      result, kept := SweepLog(Keeper(snapshot, policy, now, SerializedLength(inner.codec)), logIo);
      if result.Ok? && result.value > 0 {
        var trimmed := TrimJournal(snapshot * Ids(kept), journalIo);
        if trimmed.Err? {
          return Err(IoError);
        }
      }
    }

    /** The first half of a sweep: compact the log to the survivors of the live events. */
    method SweepLog(keep: seq<EventEnvelope> -> seq<EventEnvelope>, io: CompactIo)
        returns (result: Result<nat, IoError>, kept: seq<EventEnvelope>)
      requires Owned() && inner.Clean()
      requires |keep(inner.records)| <= |inner.records|
      requires |keep(inner.records)| == |inner.records| ==> keep(inner.records) == inner.records
      modifies inner
      ensures kept == keep(old(inner.records))
      ensures result
           == if io.Compacted? || kept == old(inner.records) then Ok(|old(inner.records)| - |kept|) else Err(IoError)
      ensures result.Ok? ==> inner.Clean() && inner.records == kept
      ensures inner.file == EncodeAll(inner.codec, kept) || (result.Err? && inner.file == old(inner.file))
    {
      hide EncodeAll;
      kept := keep(inner.records);
      result := inner.Retain(keep, io);
    }

    /** The second half of a sweep: rewrite the journal, then the cached set. */
    method TrimJournal(ids: set<EventId>, io: CompactIo) returns (result: Result<(), IoError>)
      requires Owned()
      modifies this, delivered
      ensures result.Ok? <==> io.Compacted?
      ensures io.Compacted? ==> delivered.Clean() && deliveredSet == Elements(delivered.records) == ids
      ensures delivered.file == old(delivered.file) || EncodesIds(delivered.file, ids)
    {
      var list := InSomeOrder(ids);
      result := delivered.ReplaceAll(list, io);
      if result.Ok? {
        deliveredSet := Elements(list);
      }
    }

    method Prune(policy: ManualRetention, io: CompactIo) returns (result: Result<nat, IoError>)
      requires Valid()
      modifies inner
      ensures io.Compacted? ==>
        && result == Ok(|old(inner.records)| - |inner.records|)
        && Valid() && View() == old(View()).Pruned(policy)
    {
      KeepAll(policy, inner.records);
      result := inner.Prune(policy, EventTime(), io);
    }
  }

  lemma ReopensClean(c: Codec<EventEnvelope>, events: seq<EventEnvelope>, ids: seq<EventId>)
    requires GoodCodec(c)
    ensures Reopen(c, Image(EncodeAll(c, events), EncodeAll(IdCodec, ids))) == Ok(StoreState(events, Elements(ids)))
  {
    IdCodecIsGood();
    ReadBack(c, events);
    ReadBack(IdCodec, ids);
  }

  function Keeper(delivered: set<EventId>, policy: AutoRetention, now: int, size: EventEnvelope -> nat)
    : seq<EventEnvelope> -> seq<EventEnvelope>
  {
    (events: seq<EventEnvelope>) => Retained(events, delivered, policy, now, size)
  }

  lemma KeepAll(policy: ManualRetention, events: seq<EventEnvelope>)
    ensures |policy.Keep(events, EventTime())| == |events| ==> policy.Keep(events, EventTime()) == events
  {
    if policy.OlderThan? {
      FilterLength(AtOrAfter(policy.cutoff, EventTime()), events);
    }
  }

  /** The journal is rewritten from a hash set: any order. */
  method InSomeOrder(ids: set<EventId>) returns (list: seq<EventId>)
    ensures Elements(list) == ids && Distinct(list)
  {
    list := [];
    var left := ids;
    while left != {}
      invariant Elements(list) + left == ids && Elements(list) !! left && Distinct(list)
    {
      var id :| id in left;
      assert id !in list;
      assert Elements(list + [id]) == Elements(list) + {id};
      list, left := list + [id], left - {id};
    }
  }

  /** The file is a clean journal of exactly these ids. */
  ghost predicate EncodesIds(file: seq<byte>, ids: set<EventId>) {
    exists list :: Elements(list) == ids && file == EncodeAll(IdCodec, list)
  }

  /** What a sweep may leave on disk: both old files, or the rewritten log with the old or the rewritten journal. */
  ghost predicate LeftBySweep(c: Codec<EventEnvelope>, image: Image, before: StoreState, journal: seq<EventId>,
      swept: StoreState)
  {
    || image == Image(EncodeAll(c, before.events), EncodeAll(IdCodec, journal))
    || (image.log == EncodeAll(c, swept.events)
        && (image.journal == EncodeAll(IdCodec, journal) || EncodesIds(image.journal, swept.delivered)))
  }

  /** Reopening shows the old state, the kept events with the old delivered ids, or the swept state. */
  ghost predicate CrashSafe(c: Codec<EventEnvelope>, image: Image, before: StoreState, swept: StoreState) {
    || Reopen(c, image) == Ok(before)
    || Reopen(c, image) == Ok(StoreState(swept.events, before.delivered))
    || Reopen(c, image) == Ok(swept)
  }

  /** Two-file retention is crash-safe: whatever a sweep leaves on disk reopens. */
  lemma SweepIsCrashSafe(c: Codec<EventEnvelope>, image: Image, before: StoreState, journal: seq<EventId>,
      swept: StoreState)
    requires GoodCodec(c) && before.delivered == Elements(journal) && LeftBySweep(c, image, before, journal, swept)
    ensures CrashSafe(c, image, before, swept)
  {
    ReopensClean(c, before.events, journal);
    ReopensClean(c, swept.events, journal);
    if EncodesIds(image.journal, swept.delivered) {
      var list :| Elements(list) == swept.delivered && image.journal == EncodeAll(IdCodec, list);
      ReopensClean(c, swept.events, list);
    }
  }

  // ------------------------------------------------------------------ what a store's operations leave

  /** A swept store, for every policy: its events are the longest suffix of the unexpired ones inside the bounds, so an
      event stays if and only if it was there, has not expired, and fits with the later unexpired ones; at most so many
      events and so many bytes of log are left, if the policy bounds them. The ids known delivered are left alone if
      every event stays, and otherwise trimmed to those of the events that do. */
  lemma SweptIsExact(c: Codec<EventEnvelope>, state: StoreState, policy: AutoRetention, now: int, e: EventEnvelope,
      id: EventId)
    ensures
      var swept, size := state.Swept(policy, now, SerializedLength(c)), SerializedLength(c);
      var unexpired := Unexpired(state.events, state.delivered, policy, now);
      && LongestFit(size, policy, swept.events, unexpired)
      && (e in swept.events <==>
            && e in state.events && !Expired(state.delivered, policy, now, e)
            && FitsWithLater(size, policy, unexpired, e))
      && (policy.maxCount.Some? ==> |swept.events| <= policy.maxCount.value)
      && (policy.maxBytes.Some? ==> |EncodeAll(c, swept.events)| <= policy.maxBytes.value)
      && (id in swept.delivered <==>
            && id in state.delivered
            && (|swept.events| == |state.events| || exists d :: d in swept.events && d.id == id))
  {
    var size := SerializedLength(c);
    var swept := state.Swept(policy, now, size);
    var unexpired := Unexpired(state.events, state.delivered, policy, now);
    SurvivorsAreUnexpired(state.events, state.delivered, policy, now);
    RetainedMembers(state.events, state.delivered, policy, now, size);
    if policy.IsUnbounded() { UnboundedKeepsAll(state, policy, now, size); }
    assert swept.events == Retained(state.events, state.delivered, policy, now, size);
    RetentionIsSoundAndMaximal(state.events, state.delivered, policy, now, size, e);
    FitsMeans(c, policy, swept.events);
  }

  lemma UnboundedKeepsAll(state: StoreState, policy: AutoRetention, now: int, size: EventEnvelope -> nat)
    requires policy.IsUnbounded()
    ensures Retained(state.events, state.delivered, policy, now, size) == state.events
  {
    FilterAll(Survives(state.delivered, policy, now), state.events);
  }

  /** A pruned store: by age, each event stays as often as it was there if and only if it is not from before the cutoff,
      in order; by count, the last `max` stay. */
  lemma PrunedIsExact(state: StoreState, policy: ManualRetention, e: EventEnvelope)
    ensures
      var pruned := state.Pruned(policy);
      && pruned.delivered == state.delivered
      && match policy
         case OlderThan(cutoff) =>
           && IsSubsequence(pruned.events, state.events)
           && multiset(pruned.events)[e] == if e.timestamp >= cutoff then multiset(state.events)[e] else 0
         case KeepMostRecent(max) =>
           pruned.events == if |state.events| <= max then state.events else state.events[|state.events| - max..]
  {
    if policy.OlderThan? {
      FilterIsSubsequence(AtOrAfter(policy.cutoff, EventTime()), state.events);
      FilterCounts(AtOrAfter(policy.cutoff, EventTime()), state.events, e);
    }
  }

  /** The event is the first of the list that has the property. */
  ghost predicate IsFirst(events: seq<EventEnvelope>, e: EventEnvelope, has: EventEnvelope -> bool) {
    exists i :: 0 <= i < |events| && events[i] == e && has(e) && forall j :: 0 <= j < i ==> !has(events[j])
  }

  /** A lookup by id or by key finds nothing if no retained event has it, and otherwise the first that does. */
  lemma LookupsAreExact(state: StoreState, id: EventId, key: string, size: EventEnvelope -> nat)
    ensures
      var (after, seen) := Meaning(state, OpGet(id), size);
      && after == state && seen.Found?
      && (seen.event.None? <==> forall e :: e in state.events ==> e.id != id)
      && (seen.event.Some? ==> IsFirst(state.events, seen.event.value, (e: EventEnvelope) => e.id == id))
    ensures
      var (after, seen) := Meaning(state, OpFindKey(key), size);
      && after == state && seen.Found?
      && (seen.event.None? <==> forall e :: e in state.events ==> e.metadata.idempotencyKey != Some(key))
      && (seen.event.Some? ==>
            IsFirst(state.events, seen.event.value, (e: EventEnvelope) => e.metadata.idempotencyKey == Some(key)))
  {
    FirstIsFirst(HasId(id), state.events);
    FirstIsFirst(HasKey(key), state.events);
  }

  /** The undelivered events are exactly the retained ones whose id is not known delivered, each as often and in the
      order they were appended. */
  lemma UndeliveredIsExact(state: StoreState, e: EventEnvelope)
    ensures IsSubsequence(state.Undelivered(), state.events)
    ensures multiset(state.Undelivered())[e] == if e.id in state.delivered then 0 else multiset(state.events)[e]
  {
    FilterIsSubsequence(NotIn(state.delivered), state.events);
    FilterCounts(NotIn(state.delivered), state.events, e);
  }

  lemma {:induction false} FilterCounts(p: EventEnvelope -> bool, events: seq<EventEnvelope>, e: EventEnvelope)
    ensures multiset(Filter(p, events))[e] == if p(e) then multiset(events)[e] else 0
  {
    if events != [] {
      FilterCounts(p, events[1..], e);
      assert events == [events[0]] + events[1..];
    }
  }

  /** Ids of events that are gone are invisible: trimming them changes no undelivered event. */
  lemma SweepKeepsUndelivered(state: StoreState, policy: AutoRetention, now: int, size: EventEnvelope -> nat)
    ensures
      var swept := state.Swept(policy, now, size);
      StoreState(swept.events, state.delivered).Undelivered() == swept.Undelivered()
  {
    var swept := state.Swept(policy, now, size);
    FilterSame(NotIn(state.delivered), NotIn(swept.delivered), swept.events);
  }

  // ------------------------------------------------------------------ the file store refines the memory store

  datatype Operation =
    | OpAppend(event: EventEnvelope)
    | OpMark(id: EventId)
    | OpSweep(policy: AutoRetention, now: int)
    | OpPrune(cut: ManualRetention)
    | OpReopen
    | OpGet(get: EventId)
    | OpFindKey(key: string)
    | OpAll
    | OpUndelivered
    | OpLen
  {
    predicate IsQuery() { OpGet? || OpFindKey? || OpAll? || OpUndelivered? || OpLen? }
  }

  datatype Observation =
    | Done
    | Removed(count: nat)
    | Found(event: Option<EventEnvelope>)
    | Listed(events: seq<EventEnvelope>)
    | Length(len: nat)

  method OnMemory(store: InMemoryEventStore, op: Operation, size: EventEnvelope -> nat) returns (seen: Observation)
    modifies store
    ensures (store.View(), seen) == Meaning(old(store.View()), op, size)
  {
    match op {
      case OpAppend(event) => store.Append(event); seen := Done;
      case OpMark(id) => store.MarkDelivered(id); seen := Done;
      case OpSweep(policy, now) =>
        var removed := store.EnforceRetention(policy, now, size);
        seen := Removed(removed);
      case OpPrune(policy) =>
        var removed := store.Prune(policy);
        seen := Removed(removed);
      case OpReopen => seen := Done;
      case OpGet(id) =>
        var found := store.Find(HasId(id));
        seen := Found(found);
      case OpFindKey(key) =>
        var found := store.Find(HasKey(key));
        seen := Found(found);
      case OpAll => seen := Listed(store.events);
      case OpUndelivered => seen := Listed(Filter(NotIn(store.delivered), store.events));
      case OpLen => seen := Length(|store.events|);
    }
  }

  /** What an operation does to a store's meaning, and what the caller sees. */
  function Meaning(state: StoreState, op: Operation, size: EventEnvelope -> nat): (StoreState, Observation) {
    match op
    case OpAppend(event) => (StoreState(state.events + [event], state.delivered), Done)
    case OpMark(id) => (state.Mark(id), Done)
    case OpSweep(policy, now) =>
      var swept := state.Swept(policy, now, size);
      RetainedMembers(state.events, state.delivered, policy, now, size);
      (swept, Removed(|state.events| - |swept.events|))
    case OpPrune(policy) =>
      (state.Pruned(policy), Removed(|state.events| - |state.Pruned(policy).events|))
    case OpReopen => (state, Done)
    case OpGet(id) => (state, Found(First(HasId(id), state.events)))
    case OpFindKey(key) => (state, Found(First(HasKey(key), state.events)))
    case OpAll => (state, Listed(state.events))
    case OpUndelivered => (state, Listed(state.Undelivered()))
    case OpLen => (state, Length(|state.events|))
  }

  /** `states` and `seen` are the run of the first operations of `ops` from an empty store. */
  ghost predicate IsRun(states: seq<StoreState>, ops: seq<Operation>, seen: seq<Observation>,
      size: EventEnvelope -> nat)
  {
    && |states| == |seen| + 1 && |seen| <= |ops|
    && states[0] == StoreState([], {})
    && forall i :: 0 <= i < |seen| ==> Meaning(states[i], ops[i], size) == (states[i + 1], seen[i])
  }

  method CloseAndReopen(store: FileEventStore) returns (after: FileEventStore)
    requires store.Valid() && GoodCodec(store.inner.codec)
    ensures fresh(after) && fresh(after.inner) && fresh(after.delivered)
    ensures after.Valid() && after.inner.codec == store.inner.codec && after.View() == store.View()
  {
    IdCodecIsGood();
    ReadBack(IdCodec, store.delivered.records);
    ReadBack(store.inner.codec, store.inner.records);
    var reopened := FileEventStore.Open(store.inner.codec, Image(store.inner.file, store.delivered.file));
    after := reopened.value;
  }

  method OnFile(store: FileEventStore, op: Operation) returns (after: FileEventStore, seen: Observation)
    requires store.Valid() && GoodCodec(store.inner.codec)
    modifies store, store.inner, store.delivered
    ensures after.Valid() && after.inner.codec == store.inner.codec
    ensures after == store || (fresh(after) && fresh(after.inner) && fresh(after.delivered))
    ensures (after.View(), seen) == Meaning(old(store.View()), op, SerializedLength(store.inner.codec))
  {
    after := store;
    if op.IsQuery() {
      seen := QueryFile(store, op);
    } else if op.OpReopen? {
      after := CloseAndReopen(store);
      seen := Done;
    } else {
      seen := UpdateFile(store, op);
    }
  }

  method UpdateFile(store: FileEventStore, op: Operation) returns (seen: Observation)
    requires store.Valid() && GoodCodec(store.inner.codec) && !op.IsQuery() && !op.OpReopen?
    modifies store, store.inner, store.delivered
    ensures store.Valid()
    ensures (store.View(), seen) == Meaning(old(store.View()), op, SerializedLength(store.inner.codec))
  {
    seen := Done;
    match op {
      case OpAppend(event) =>
        var appended := store.Append(event, Appended);
      case OpMark(id) =>
        var marked := store.MarkDelivered(id, Appended);
      case OpSweep(policy, now) =>
        var removed := store.EnforceRetention(policy, now, Compacted, Compacted);
        seen := Removed(removed.value);
      case OpPrune(policy) =>
        var removed := store.Prune(policy, Compacted);
        seen := Removed(removed.value);
    }
  }

  method QueryFile(store: FileEventStore, op: Operation) returns (seen: Observation)
    requires op.IsQuery()
    ensures (store.View(), seen) == Meaning(store.View(), op, SerializedLength(store.inner.codec))
  {
    match op {
      case OpGet(id) =>
        var found := store.inner.Find(HasId(id));
        seen := Found(found);
      case OpFindKey(key) =>
        var found := store.inner.Find(HasKey(key));
        seen := Found(found);
      case OpAll => seen := Listed(store.inner.records);
      case OpUndelivered =>
        var pending := store.Undelivered();
        seen := Listed(pending);
      case OpLen => seen := Length(|store.inner.records|);
    }
  }

  /** One operation on both stores. */
  method OnBoth(file: FileEventStore, memory: InMemoryEventStore, op: Operation)
      returns (after: FileEventStore, onFile: Observation, onMemory: Observation)
    requires file.Valid() && GoodCodec(file.inner.codec) && file.View() == memory.View()
    modifies file, file.inner, file.delivered, memory
    ensures after.Valid() && after.inner.codec == file.inner.codec
    ensures after == file || (fresh(after) && fresh(after.inner) && fresh(after.delivered))
    ensures after.View() == memory.View() && onFile == onMemory
    ensures (memory.View(), onMemory) == Meaning(old(memory.View()), op, SerializedLength(file.inner.codec))
  {
    after, onFile := OnFile(file, op);
    onMemory := OnMemory(memory, op, SerializedLength(file.inner.codec));
  }

  /** For every sequence of operations, with clean reopenings anywhere, the file store shows its caller
      exactly what the in-memory store shows: the observations of the one run the operations have. */
  method FileRefinesMemory(c: Codec<EventEnvelope>, ops: seq<Operation>)
      returns (onFile: seq<Observation>, onMemory: seq<Observation>, ghost states: seq<StoreState>)
    requires GoodCodec(c)
    ensures onFile == onMemory && |onFile| == |ops| && IsRun(states, ops, onFile, SerializedLength(c))
  {
    var log := new JsonlStore(c, [], []);
    var journal := new JsonlStore(IdCodec, [], []);
    var file := new FileEventStore(log, journal);
    var memory := new InMemoryEventStore();
    onFile, onMemory, states := [], [], [memory.View()];
    for i := 0 to |ops|
      invariant file.Valid() && file.inner.codec == c && file.View() == memory.View()
      invariant fresh(file) && fresh(file.inner) && fresh(file.delivered) && fresh(memory)
      invariant onFile == onMemory && |onFile| == i && |states| == i + 1 && states[i] == memory.View()
      invariant IsRun(states, ops, onFile, SerializedLength(c))
    {
      var seenOnFile, seenInMemory;
      file, seenOnFile, seenInMemory := OnBoth(file, memory, ops[i]);
      ExtendRun(states, ops, onFile, SerializedLength(c), memory.View(), seenOnFile);
      onFile, onMemory := onFile + [seenOnFile], onMemory + [seenInMemory];
      states := states + [memory.View()];
    }
  }

  lemma ExtendRun(states: seq<StoreState>, ops: seq<Operation>, seen: seq<Observation>, size: EventEnvelope -> nat,
      after: StoreState, last: Observation)
    requires IsRun(states, ops, seen, size) && |seen| < |ops|
    requires Meaning(states[|seen|], ops[|seen|], size) == (after, last)
    ensures IsRun(states + [after], ops, seen + [last], size)
  {
  }
}
