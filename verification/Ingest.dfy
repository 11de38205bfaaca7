/** The ingest pipeline over a file event store: persist, handle, mark delivered; and startup recovery. */
module Ingest {
  import opened Base
  import opened Jsonl
  import opened JsonlStores
  import opened EventStores
  import opened Registry
  import opened Runtime
  import opened TriggerRuntimes

  datatype IngestReport = IngestReport(eventId: EventId, handle: HandleReport, deduplicated: bool)

  datatype AcceptReport = AcceptReport(eventId: EventId, deduplicated: bool)

  /** The retained event whose idempotency key the event repeats, if any. */
  function Existing(events: seq<EventEnvelope>, e: EventEnvelope): Option<EventEnvelope> {
    match e.metadata.idempotencyKey
    case None => None
    case Some(key) => First(HasKey(key), events)
  }

  /** An event is a duplicate if and only if it carries an idempotency key that a retained event carries too; the
      event reported is the earliest of those. Without a key nothing is a duplicate, and once the earlier copy
      has been removed the key is new again. */
  lemma DuplicateIff(events: seq<EventEnvelope>, e: EventEnvelope)
    ensures
      var key := e.metadata.idempotencyKey;
      && (Existing(events, e).Some? <==> key.Some? && exists d :: d in events && d.metadata.idempotencyKey == key)
      && (Existing(events, e).Some? ==>
            exists i :: 0 <= i < |events| && events[i] == Existing(events, e).value
              && events[i].metadata.idempotencyKey == key
              && forall j :: 0 <= j < i ==> events[j].metadata.idempotencyKey != key)
  {
    if e.metadata.idempotencyKey.Some? {
      FirstIsFirst(HasKey(e.metadata.idempotencyKey.value), events);
    }
  }

  class EventIngest {
    const store: FileEventStore
    const runtime: TriggerRuntime

    constructor (store: FileEventStore, runtime: TriggerRuntime)
      ensures this.store == store && this.runtime == runtime
    {
      this.store := store;
      this.runtime := runtime;
    }

    method FindExisting(e: EventEnvelope) returns (existing: Option<EventEnvelope>)
      ensures existing == Existing(store.View().events, e)
    {
      match e.metadata.idempotencyKey {
        case None => return None;
        case Some(key) => existing := store.inner.Find(HasKey(key));
      }
    }

    /** Persist, then handle, then mark. A repeated key changes nothing; a failed append submits nothing; a
        failed handling leaves the event stored and undelivered. */
    method IngestEvent(e: EventEnvelope, logIo: AppendIo, journalIo: AppendIo)
        returns (result: Result<IngestReport, string>)
      requires store.Owned()
      modifies store, store.inner, store.delivered, runtime
      ensures
        var before, existing := old(store.View()), Existing(old(store.View()).events, e);
        var appended := StoreState(before.events + [e], before.delivered);
        var (after, handled) := Handle(runtime.ctx, e, old(runtime.world));
        if existing.Some? then
          && result == Ok(IngestReport(existing.value.id, HandleReport([], []), true))
          && store.View() == before && runtime.world == old(runtime.world)
        else if !logIo.Appended? then
          result.Err? && store.View() == before && runtime.world == old(runtime.world)
        else
          && runtime.world == after
          && (result.Ok? <==> handled.Ok? && (e.id in before.delivered || journalIo.Appended?))
          && (result.Ok? ==> result.value == IngestReport(e.id, handled.value, false))
          && store.View() == if result.Ok? then appended.Mark(e.id) else appended
      ensures old(store.Valid()) && logIo.Appended? && journalIo.Appended? ==> store.Valid()
    {
      var existing := FindExisting(e);
      if existing.Some? {
        return Ok(IngestReport(existing.value.id, HandleReport([], []), true));
      }
      var appended := store.Append(e, logIo);
      if appended.Err? {
        return Err("storage");
      }
      var handled := runtime.HandleEvent(e);
      if handled.Err? {
        return Err(handled.error);
      }
      var marked := store.MarkDelivered(e.id, journalIo);
      if marked.Err? {
        return Err("storage");
      }
      return Ok(IngestReport(e.id, handled.value, false));
    }

    /** The fast half: deduplicate and append. */
    method Accept(e: EventEnvelope, logIo: AppendIo) returns (result: Result<AcceptReport, string>)
      requires store.Owned()
      modifies store.inner
      ensures
        var before, existing := old(store.View()), Existing(old(store.View()).events, e);
        if existing.Some? then
          result == Ok(AcceptReport(existing.value.id, true)) && store.View() == before
        else if !logIo.Appended? then
          result.Err? && store.View() == before
        else
          && result == Ok(AcceptReport(e.id, false))
          && store.View() == StoreState(before.events + [e], before.delivered)
    {
      var existing := FindExisting(e);
      if existing.Some? {
        return Ok(AcceptReport(existing.value.id, true));
      }
      var appended := store.Append(e, logIo);
      if appended.Err? {
        return Err("storage");
      }
      return Ok(AcceptReport(e.id, false));
    }

    /** The dispatch half: handle an accepted event and mark it. */
    method Dispatch(e: EventEnvelope, journalIo: AppendIo) returns (result: Result<HandleReport, string>)
      requires store.Owned()
      modifies store, store.delivered, runtime
      ensures
        var (after, handled) := Handle(runtime.ctx, e, old(runtime.world));
        && runtime.world == after
        && (result.Ok? <==> handled.Ok? && (e.id in old(store.View()).delivered || journalIo.Appended?))
        && (result.Ok? ==> result == handled)
        && store.View() == if result.Ok? then old(store.View()).Mark(e.id) else old(store.View())
    {
      var handled := runtime.HandleEvent(e);
      if handled.Err? {
        return handled;
      }
      var marked := store.MarkDelivered(e.id, journalIo);
      if marked.Err? {
        return Err("storage");
      }
      return handled;
    }

    /** Startup recovery, `faults(i)` being the fate of the i-th mark. On success everything that was
        undelivered has been handled with every matched trigger covered, and nothing is undelivered; on an
        error after `marked` events, exactly those were marked. */
    method RecoverUndelivered(faults: nat -> AppendIo) returns (result: Result<nat, string>, ghost marked: nat)
      requires store.Owned()
      modifies store, store.delivered, runtime
      ensures MarkedUpTo(old(store.View()), store.View(), marked)
      ensures HandledUpTo(runtime.ctx, old(store.View()).Undelivered(), old(runtime.world), runtime.world, marked)
      ensures
        var pending := old(store.View()).Undelivered();
        runtime.world == HandleEach(runtime.ctx, Tried(pending, marked), old(runtime.world)).0
      ensures result.Ok? ==> result.value == |old(store.View()).Undelivered()| == marked
      ensures result.Err? ==> marked < |old(store.View()).Undelivered()|
    {
      var pending := store.Undelivered();
      ghost var before := store.View();
      result, marked := RecoverEach(pending, faults);
      RemainingAfter(before, pending, marked);
    }

    /** The loop of recovery: dispatch event after event, stopping at the first error. */
    method RecoverEach(pending: seq<EventEnvelope>, faults: nat -> AppendIo)
        returns (result: Result<nat, string>, ghost marked: nat)
      requires store.Owned()
      modifies store, store.delivered, runtime
      ensures marked <= |pending|
      ensures if result.Ok? then result.value == marked == |pending| else marked < |pending|
      ensures store.View() == old(StoreState(store.View().events, store.View().delivered + Ids(pending[..marked])))
      ensures HandledUpTo(runtime.ctx, pending, old(runtime.world), runtime.world, marked)
      ensures runtime.world == HandleEach(runtime.ctx, Tried(pending, marked), old(runtime.world)).0
    {
      ghost var before := store.View();
      ghost var worlds, reports: seq<HandleReport> := [runtime.world], [];
      var recovered := 0;
      while recovered < |pending|
        invariant 0 <= recovered == |reports| <= |pending|
        invariant store.View() == StoreState(before.events, before.delivered + Ids(pending[..recovered]))
        invariant IsPass(runtime.ctx, pending, worlds, reports)
        invariant worlds[0] == old(runtime.world) && worlds[recovered] == runtime.world
      {
        var event := pending[recovered];
        assert pending[..recovered + 1] == pending[..recovered] + [event];
        assert Ids(pending[..recovered + 1]) == Ids(pending[..recovered]) + {event.id};
        var handled := Dispatch(event, faults(recovered));
        if handled.Err? {
          PassIsHandledUpTo(runtime.ctx, pending, worlds, reports, runtime.world);
          return Err(handled.error), recovered;
        }
        PassGoesOn(runtime.ctx, pending, worlds, reports, runtime.world, handled.value);
        worlds, reports := worlds + [runtime.world], reports + [handled.value];
        recovered := recovered + 1;
      }
      PassIsHandledUpTo(runtime.ctx, pending, worlds, reports, runtime.world);
      return Ok(recovered), recovered;
    }
  }

  /** The first `n` undelivered events were marked and no other, so the rest are what remains undelivered:
      in order, when ids are distinct; nothing, when all were marked. */
  ghost predicate MarkedUpTo(before: StoreState, after: StoreState, n: nat) {
    var pending := before.Undelivered();
    && n <= |pending|
    && after == StoreState(before.events, before.delivered + Ids(pending[..n]))
    && after.Undelivered() == Filter(NotIn(Ids(pending[..n])), pending)
    && (n == |pending| ==> after.Undelivered() == [])
    && (Distinct(IdList(pending)) ==> after.Undelivered() == pending[n..])
  }

  /** Nothing was taken away, no key gained a second live job, and every matched trigger of the first `n` was submitted
      or recorded; and if names are distinct and unambiguous, those submitted have live jobs of their own. */
  ghost predicate HandledUpTo(ctx: Context, pending: seq<EventEnvelope>, before: World, after: World, n: nat) {
    && n <= |pending|
    && Grows(ctx.env, before, after)
    && (OneLivePerKey(before.jobs) ==> OneLivePerKey(after.jobs))
    && (forall i :: 0 <= i < n ==> AllSettled(ctx, before, after, pending[i]))
    && (Owned(ctx, before) ==> Owned(ctx, after) && forall e :: AllOwn(ctx, before, after, e))
  }

  /** The events a pass tries when it ends with `n` done: all of them, or one more. */
  function Tried(events: seq<EventEnvelope>, n: nat): seq<EventEnvelope> {
    if n < |events| then events[..n + 1] else events
  }

  /** A pass that is over, or has handled one event more. */
  lemma PassIsHandledUpTo(ctx: Context, events: seq<EventEnvelope>, worlds: seq<World>, reports: seq<HandleReport>,
      last: World)
    requires IsPass(ctx, events, worlds, reports)
    requires last
          == if |reports| == |events| then worlds[|reports|] else Handle(ctx, events[|reports|], worlds[|reports|]).0
    ensures HandledUpTo(ctx, events, worlds[0], last, |reports|)
    ensures last == HandleEach(ctx, Tried(events, |reports|), worlds[0]).0
  {
    var n := |reports|;
    PassIsHandleEach(ctx, events[..n], worlds, reports, worlds[n]);
    HandleEachGuarantees(ctx, events[..n], worlds[0]);
    hide Handle, HandleEach, Grows, OneLivePerKey, Owned, AllSettled, AllOwn;
    assert forall i :: 0 <= i < n ==> events[..n][i] == events[i];
    if n == |events| {
      assert events[..n] == events;
    } else {
      HandleGuarantees(ctx, events[n], worlds[n]);
      GrowsOn(ctx.env, worlds[0], worlds[n], last);
      OneMoreIsTried(ctx, events, worlds, reports);
      forall i | 0 <= i < n
        ensures AllSettled(ctx, worlds[0], last, events[i])
      {
        AllSettledWider(ctx, worlds[0], worlds[n], last, events[i]);
      }
      if Owned(ctx, worlds[0]) {
        forall e
          ensures AllOwn(ctx, worlds[0], last, e)
        {
          AcceptedAreOwn(ctx, worlds[0], last, e);
        }
      }
    }
  }

  lemma OneMoreIsTried(ctx: Context, events: seq<EventEnvelope>, worlds: seq<World>, reports: seq<HandleReport>)
    requires IsPass(ctx, events, worlds, reports) && |reports| < |events|
    ensures HandleEach(ctx, Tried(events, |reports|), worlds[0]).0
         == Handle(ctx, events[|reports|], worlds[|reports|]).0
  {
    var n := |reports|;
    var tried := Tried(events, n);
    var (last, result) := Handle(ctx, events[n], worlds[n]);
    hide Handle, HandleEach;
    assert IsPass(ctx, tried, worlds, reports);
    if result.Ok? {
      PassGoesOn(ctx, tried, worlds, reports, last, result.value);
      PassIsHandleEach(ctx, tried, worlds + [last], reports + [result.value], last);
    } else {
      PassIsHandleEach(ctx, tried, worlds, reports, last);
    }
  }

  function IdList(events: seq<EventEnvelope>): seq<EventId> {
    seq(|events|, i requires 0 <= i < |events| => events[i].id)
  }

  /** What is left undelivered once the first `n` pending events are marked. */
  lemma RemainingAfter(before: StoreState, pending: seq<EventEnvelope>, n: nat)
    requires pending == before.Undelivered() && n <= |pending|
    ensures MarkedUpTo(before, StoreState(before.events, before.delivered + Ids(pending[..n])), n)
  {
    var marked := Ids(pending[..n]);
    SplitFilter(before.events, before.delivered, marked);
    var front, back := pending[..n], pending[n..];
    assert pending == front + back;
    FilterConcat(NotIn(marked), front, back);
    FilterNothing(NotIn(marked), front);
    if Distinct(IdList(pending)) {
      LaterIdsAreUnmarked(pending, n);
      FilterAll(NotIn(marked), back);
    }
  }

  lemma LaterIdsAreUnmarked(pending: seq<EventEnvelope>, n: nat)
    requires n <= |pending| && Distinct(IdList(pending))
    ensures forall e :: e in pending[n..] ==> e.id !in Ids(pending[..n])
  {
    var ids := IdList(pending);
    forall d, e | d in pending[..n] && e in pending[n..]
      ensures d.id != e.id
    {
      var i, j :| 0 <= i < n && pending[i] == d && n <= j < |pending| && pending[j] == e;
      assert ids[i] == d.id && ids[j] == e.id;
    }
  }

  lemma {:induction false} SplitFilter(events: seq<EventEnvelope>, delivered: set<EventId>, marked: set<EventId>)
    ensures Filter(NotIn(delivered + marked), events) == Filter(NotIn(marked), Filter(NotIn(delivered), events))
  {
    if events != [] { SplitFilter(events[1..], delivered, marked); }
  }

  /** A recovery after a recovery finds nothing to do. */
  method RecoverTwice(ingest: EventIngest, faults: nat -> AppendIo)
      returns (first: Result<nat, string>, second: Result<nat, string>)
    requires ingest.store.Owned()
    modifies ingest.store, ingest.store.delivered, ingest.runtime
    ensures first.Ok? ==> first.value == |old(ingest.store.View().Undelivered())| && second == Ok(0)
  {
    ghost var marked;
    first, marked := ingest.RecoverUndelivered(faults);
    second, marked := ingest.RecoverUndelivered(faults);
  }

  /** An event stored under an id is found by recovery if and only if that id is not already marked delivered,
      whatever event it was marked for. */
  lemma RecoveredIffIdUnmarked(state: StoreState, e: EventEnvelope)
    ensures e in StoreState(state.events + [e], state.delivered).Undelivered() <==> e.id !in state.delivered
  {
    FilterMember(NotIn(state.delivered), state.events + [e], e);
  }

  /** Why ids must name events: ingest an event, then accept another under the same id. The second is acknowledged
      and stored, no trigger is handled for it, and a recovery succeeds without handling it. */
  method SameIdIsNeverRecovered(ingest: EventIngest, first: EventEnvelope, second: EventEnvelope)
      returns (ingested: Result<IngestReport, string>, accepted: Result<AcceptReport, string>,
               recovered: Result<nat, string>)
    requires ingest.store.Valid() && ingest.store.View() == StoreState([], {})
    requires first.id == second.id && first != second
    requires first.metadata.idempotencyKey.None? && second.metadata.idempotencyKey.None?
    modifies ingest.store, ingest.store.inner, ingest.store.delivered, ingest.runtime
    ensures ingested.Ok? ==>
      && accepted == Ok(AcceptReport(second.id, false))
      && ingest.store.View().events == [first, second]
      && recovered == Ok(0)
      && ingest.runtime.world == Handle(ingest.runtime.ctx, first, old(ingest.runtime.world)).0
  {
    ingested := ingest.IngestEvent(first, Appended, Appended);
    accepted := ingest.Accept(second, Appended);
    recovered := Ok(0);
    if ingested.Ok? {
      FilterNothing(NotIn(ingest.store.View().delivered), ingest.store.View().events);
      ghost var marked;
      recovered, marked := ingest.RecoverUndelivered(_ => Appended);
    }
  }
}
