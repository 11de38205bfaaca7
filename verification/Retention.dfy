/** What retention keeps: the age and grace filters, the size bounds, and how sweeps compose. */
module Retention {
  import opened Base
  import Jsonl

  /** Durations and ages are in nanoseconds; `None` is no bound. */
  datatype AutoRetention = AutoRetention(
    deliveredGrace: Option<int>,
    maxAge: Option<int>,
    maxCount: Option<nat>,
    maxBytes: Option<nat>)
  {
    predicate IsUnbounded() {
      deliveredGrace.None? && maxAge.None? && maxCount.None? && maxBytes.None?
    }

    /** No hard bound: only delivered events can go. */
    predicate GraceOnly() {
      maxAge.None? && maxCount.None? && maxBytes.None?
    }
  }

  datatype ManualRetention = OlderThan(cutoff: int) | KeepMostRecent(max: nat)
  {
    function Keep<T>(items: seq<T>, timestamp: T -> int): (kept: seq<T>)
      ensures |kept| <= |items|
    {
      match this
      case OlderThan(cutoff) =>
        FilterLength(AtOrAfter(cutoff, timestamp), items);
        Filter(AtOrAfter(cutoff, timestamp), items)
      case KeepMostRecent(max) =>
        if |items| <= max then items else items[|items| - max..]
    }
  }

  /** A manual policy keeps exactly the records at or after the cutoff, in order; or exactly the last `max`, all of
      them if there are fewer. */
  lemma ManualPolicyKeeps<T>(policy: ManualRetention, items: seq<T>, timestamp: T -> int, item: T)
    ensures
      var kept := policy.Keep(items, timestamp);
      match policy
      case OlderThan(cutoff) =>
        IsSubsequence(kept, items) && (item in kept <==> item in items && timestamp(item) >= cutoff)
      case KeepMostRecent(max) =>
        IsSuffix(kept, items) && |kept| <= max && (|kept| < max ==> kept == items)
  {
    if policy.OlderThan? {
      FilterMember(AtOrAfter(policy.cutoff, timestamp), items, item);
      FilterIsSubsequence(AtOrAfter(policy.cutoff, timestamp), items);
    }
  }

  function AtOrAfter<T>(cutoff: int, timestamp: T -> int): T -> bool {
    item => timestamp(item) >= cutoff
  }

  function EventTime(): EventEnvelope -> int {
    (event: EventEnvelope) => event.timestamp
  }

  /** The footprint of a record: its serialized text and the newline. */
  function SerializedLength<T>(c: Jsonl.Codec<T>): T -> nat {
    r => |c.encode(r)| + 1
  }

  // ------------------------------------------------------------------ size bounds

  function TotalSize<T>(size: T -> nat, s: seq<T>): nat {
    if s == [] then 0 else size(s[0]) + TotalSize(size, s[1..])
  }

  predicate Fits<T>(size: T -> nat, policy: AutoRetention, s: seq<T>) {
    && (policy.maxCount.Some? ==> |s| <= policy.maxCount.value)
    && (policy.maxBytes.Some? ==> TotalSize(size, s) <= policy.maxBytes.value)
  }

  /** The longest suffix that fits, found from the front. */
  function SizeBound<T>(size: T -> nat, policy: AutoRetention, s: seq<T>): seq<T> {
    if s == [] || Fits(size, policy, s) then s else SizeBound(size, policy, s[1..])
  }

  ghost predicate LongestFit<T>(size: T -> nat, policy: AutoRetention, kept: seq<T>, s: seq<T>) {
    && IsSuffix(kept, s)
    && Fits(size, policy, kept)
    && forall i :: 0 <= i < |s| - |kept| ==> !Fits(size, policy, s[i..])
  }

  lemma {:induction false} TotalSizeOfSuffix<T>(size: T -> nat, s: seq<T>, i: nat)
    requires i <= |s|
    ensures TotalSize(size, s[i..]) <= TotalSize(size, s)
  {
    if i > 0 {
      assert s[i..] == s[1..][i - 1..];
      TotalSizeOfSuffix(size, s[1..], i - 1);
    } else {
      assert s[0..] == s;
    }
  }

  lemma {:induction false} SizeBoundIsLongestFit<T>(size: T -> nat, policy: AutoRetention, s: seq<T>)
    ensures LongestFit(size, policy, SizeBound(size, policy, s), s)
  {
    if s != [] && !Fits(size, policy, s) {
      var kept := SizeBound(size, policy, s[1..]);
      SizeBoundIsLongestFit(size, policy, s[1..]);
      SuffixTransitive(kept, s[1..], s);
      forall i | 0 <= i < |s| - |kept|
        ensures !Fits(size, policy, s[i..])
      {
        assert s[i..] == if i == 0 then s else s[1..][i - 1..];
      }
    }
  }

  lemma LongestFitIsUnique<T>(size: T -> nat, policy: AutoRetention, a: seq<T>, b: seq<T>, s: seq<T>)
    requires LongestFit(size, policy, a, s) && LongestFit(size, policy, b, s)
    ensures a == b
  {
  }

  /** A record is kept exactly when it and everything after it fit. */
  lemma KeptIffFits<T>(size: T -> nat, policy: AutoRetention, s: seq<T>, i: nat)
    requires i < |s|
    ensures |s| - |SizeBound(size, policy, s)| <= i <==> Fits(size, policy, s[i..])
  {
    var kept := SizeBound(size, policy, s);
    SizeBoundIsLongestFit(size, policy, s);
    if |s| - |kept| <= i {
      var drop := i - (|s| - |kept|);
      assert s[i..] == kept[drop..];
      TotalSizeOfSuffix(size, kept, drop);
    }
  }

  /** Some occurrence of the record fits together with everything after it. */
  ghost predicate FitsWithLater<T>(size: T -> nat, policy: AutoRetention, s: seq<T>, r: T) {
    exists i :: 0 <= i < |s| && s[i] == r && Fits(size, policy, s[i..])
  }

  lemma KeptExactly<T>(size: T -> nat, policy: AutoRetention, s: seq<T>, r: T)
    ensures r in SizeBound(size, policy, s) <==> FitsWithLater(size, policy, s, r)
  {
    hide Fits;
    var kept := SizeBound(size, policy, s);
    SizeBoundIsLongestFit(size, policy, s);
    var skipped := |s| - |kept|;
    forall i | 0 <= i < |s| && s[i] == r
      ensures Fits(size, policy, s[i..]) ==> r in kept
    {
      KeptIffFits(size, policy, s, i);
      if skipped <= i { assert kept[i - skipped] == r; }
    }
    if r in kept {
      var j :| 0 <= j < |kept| && kept[j] == r;
      KeptIffFits(size, policy, s, skipped + j);
    }
  }

  /** The suffix within the byte budget, walking newest to oldest. The budget is a `nat`, so the subtraction never
      underflows. */
  method WithinBudget<T>(records: seq<T>, size: T -> nat, max: nat) returns (kept: seq<T>)
    ensures IsSuffix(kept, records) && TotalSize(size, kept) <= max
    ensures forall i :: 0 <= i < |records| - |kept| ==> TotalSize(size, records[i..]) > max
  {
    hide TotalSize;
    NothingWeighs(size);
    var budget: nat := max;
    var firstKept := |records|;
    var index := |records|;
    assert records[firstKept..] == [];
    while index > 0
      invariant 0 <= index == firstKept <= |records|
      invariant budget == max - TotalSize(size, records[firstKept..])
    {
      index := index - 1;
      var recordSize := size(records[index]);
      TailSize(size, records, index);
      if recordSize > budget {
        OverBudget(size, records, index, max);
        break;
      }
      budget := budget - recordSize;
      firstKept := index;
    }
    kept := records[firstKept..];
  }

  /** Drop the oldest beyond the count, then those beyond the byte budget. */
  method ApplySizeBounds<T>(records: seq<T>, size: T -> nat, policy: AutoRetention) returns (kept: seq<T>)
    ensures kept == SizeBound(size, policy, records)
  {
    hide TotalSize, SizeBound, IsSuffix;
    kept := records;
    SuffixAt(records, 0);
    if policy.maxCount.Some? && |kept| > policy.maxCount.value {
      kept := kept[|kept| - policy.maxCount.value..];
      SuffixAt(records, |records| - policy.maxCount.value);
    }
    ghost var counted := kept;
    SuffixAt(counted, 0);
    if policy.maxBytes.Some? {
      kept := WithinBudget(kept, size, policy.maxBytes.value);
      SuffixIsShorter(kept, counted);
    }
    NothingLongerFits(size, policy, records, counted, kept);
  }

  lemma NothingWeighs<T>(size: T -> nat)
    ensures TotalSize(size, []) == 0
  {
  }

  lemma TailSize<T>(size: T -> nat, s: seq<T>, i: nat)
    requires i < |s|
    ensures TotalSize(size, s[i..]) == size(s[i]) + TotalSize(size, s[i + 1..])
  {
    assert s[i..][1..] == s[i + 1..];
  }

  lemma OverBudget<T>(size: T -> nat, s: seq<T>, index: nat, max: nat)
    requires index <= |s| && TotalSize(size, s[index..]) > max
    ensures forall i :: 0 <= i <= index ==> TotalSize(size, s[i..]) > max
  {
    forall i | 0 <= i <= index
      ensures TotalSize(size, s[i..]) > max
    {
      assert s[i..][index - i..] == s[index..];
      TotalSizeOfSuffix(size, s[i..], index - i);
    }
  }

  lemma NothingLongerFits<T>(size: T -> nat, policy: AutoRetention, records: seq<T>, counted: seq<T>, kept: seq<T>)
    requires IsSuffix(counted, records) && IsSuffix(kept, counted) && Fits(size, policy, kept)
    requires |counted| < |records| ==> policy.maxCount == Some(|counted|)
    requires forall i :: 0 <= i < |counted| - |kept| ==>
      policy.maxBytes.Some? && TotalSize(size, counted[i..]) > policy.maxBytes.value
    ensures kept == SizeBound(size, policy, records)
  {
    SuffixTransitive(kept, counted, records);
    forall i | 0 <= i < |records| - |kept|
      ensures !Fits(size, policy, records[i..])
    {
      var skipped := |records| - |counted|;
      if i >= skipped {
        assert records[i..] == counted[i - skipped..];
      }
    }
    SizeBoundIsLongestFit(size, policy, records);
    LongestFitIsUnique(size, policy, kept, SizeBound(size, policy, records), records);
  }

  lemma {:induction false} TotalSizeIsFileSize<T>(c: Jsonl.Codec<T>, s: seq<T>)
    ensures TotalSize(SerializedLength(c), s) == |Jsonl.EncodeAll(c, s)|
  {
    if s != [] { TotalSizeIsFileSize(c, s[1..]); }
  }

  // ------------------------------------------------------------------ event retention

  function Survives(delivered: set<EventId>, policy: AutoRetention, now: int): EventEnvelope -> bool {
    (event: EventEnvelope) =>
      var age := now - event.timestamp;
      && !(policy.maxAge.Some? && age > policy.maxAge.value)
      && !(policy.deliveredGrace.Some? && event.id in delivered && age > policy.deliveredGrace.value)
  }

  function Retained(events: seq<EventEnvelope>, delivered: set<EventId>, policy: AutoRetention, now: int,
      size: EventEnvelope -> nat): (kept: seq<EventEnvelope>)
  {
    SizeBound(size, policy, Filter(Survives(delivered, policy, now), events))
  }

  method RetainEvents(events: seq<EventEnvelope>, delivered: set<EventId>, policy: AutoRetention, now: int,
      size: EventEnvelope -> nat) returns (kept: seq<EventEnvelope>)
    ensures kept == Retained(events, delivered, policy, now, size)
  {
    kept := ApplySizeBounds(Filter(Survives(delivered, policy, now), events), size, policy);
  }

  lemma RetainedMembers(events: seq<EventEnvelope>, delivered: set<EventId>, policy: AutoRetention, now: int,
      size: EventEnvelope -> nat)
    ensures |Retained(events, delivered, policy, now, size)| <= |events|
    ensures |Retained(events, delivered, policy, now, size)| == |events| ==>
      Retained(events, delivered, policy, now, size) == events
    ensures forall e :: e in Retained(events, delivered, policy, now, size) ==> e in events
  {
    var survivors := Filter(Survives(delivered, policy, now), events);
    SizeBoundIsLongestFit(size, policy, survivors);
    FilterLength(Survives(delivered, policy, now), events);
    forall e | e in Retained(events, delivered, policy, now, size)
      ensures e in events
    {
      FilterMember(Survives(delivered, policy, now), events, e);
    }
  }

  /** Past the hard age, or delivered and past the grace. */
  ghost predicate Expired(delivered: set<EventId>, policy: AutoRetention, now: int, e: EventEnvelope) {
    || (policy.maxAge.Some? && now - e.timestamp > policy.maxAge.value)
    || (policy.deliveredGrace.Some? && e.id in delivered && now - e.timestamp > policy.deliveredGrace.value)
  }

  /** Retention is sound and maximal: the kept events are the longest suffix of the survivors inside both
      size bounds; an event is kept if and only if it has not expired and it fits with the later survivors;
      and without a hard bound no undelivered event leaves. */
  lemma RetentionIsSoundAndMaximal(events: seq<EventEnvelope>, delivered: set<EventId>, policy: AutoRetention,
      now: int, size: EventEnvelope -> nat, e: EventEnvelope)
    ensures
      var survivors := Filter(Survives(delivered, policy, now), events);
      var kept := Retained(events, delivered, policy, now, size);
      && LongestFit(size, policy, kept, survivors)
      && (e in kept <==>
            e in events && !Expired(delivered, policy, now, e) && FitsWithLater(size, policy, survivors, e))
      && (policy.maxAge.None? && policy.maxCount.None? && policy.maxBytes.None? && e in events && e.id !in delivered ==>
            e in kept)
  {
    var survivors := Filter(Survives(delivered, policy, now), events);
    SizeBoundIsLongestFit(size, policy, survivors);
    FilterMember(Survives(delivered, policy, now), events, e);
    KeptExactly(size, policy, survivors, e);
    if policy.GraceOnly() && e in survivors {
      var i :| 0 <= i < |survivors| && survivors[i] == e;
      assert Fits(size, policy, survivors[i..]);
    }
  }

  /** The events that have not expired, in order. */
  ghost function Unexpired(events: seq<EventEnvelope>, delivered: set<EventId>, policy: AutoRetention, now: int)
    : seq<EventEnvelope>
  {
    Filter((e: EventEnvelope) => !Expired(delivered, policy, now, e), events)
  }

  lemma SurvivorsAreUnexpired(events: seq<EventEnvelope>, delivered: set<EventId>, policy: AutoRetention, now: int)
    ensures Filter(Survives(delivered, policy, now), events) == Unexpired(events, delivered, policy, now)
  {
    FilterSame(Survives(delivered, policy, now), (e: EventEnvelope) => !Expired(delivered, policy, now, e), events);
  }

  /** With the sizes of a file's lines, fitting is what it says: at most so many records, at most so many bytes. */
  lemma FitsMeans<T>(c: Jsonl.Codec<T>, policy: AutoRetention, s: seq<T>)
    ensures Fits(SerializedLength(c), policy, s) <==>
      && (policy.maxCount.Some? ==> |s| <= policy.maxCount.value)
      && (policy.maxBytes.Some? ==> |Jsonl.EncodeAll(c, s)| <= policy.maxBytes.value)
  {
    TotalSizeIsFileSize(c, s);
  }

  /** The rewritten log obeys the byte bound. */
  lemma RewrittenLogFits(events: seq<EventEnvelope>, delivered: set<EventId>, policy: AutoRetention, now: int,
      c: Jsonl.Codec<EventEnvelope>)
    requires policy.maxBytes.Some?
    ensures |Jsonl.EncodeAll(c, Retained(events, delivered, policy, now, SerializedLength(c)))| <= policy.maxBytes.value
  {
    SizeBoundIsLongestFit(SerializedLength(c), policy, Filter(Survives(delivered, policy, now), events));
    TotalSizeIsFileSize(c, Retained(events, delivered, policy, now, SerializedLength(c)));
  }

  // ------------------------------------------------------------------ sweeps

  /** The bound of a suffix is a suffix of the bound. */
  lemma SizeBoundOfSuffix<T>(size: T -> nat, policy: AutoRetention, a: seq<T>, b: seq<T>)
    requires IsSuffix(a, b)
    ensures IsSuffix(SizeBound(size, policy, a), SizeBound(size, policy, b))
  {
    var ka, kb := SizeBound(size, policy, a), SizeBound(size, policy, b);
    SizeBoundIsLongestFit(size, policy, a);
    SizeBoundIsLongestFit(size, policy, b);
    SuffixTransitive(ka, a, b);
    assert b[|b| - |ka|..] == ka;
    assert |ka| <= |kb|;
    assert ka == kb[|kb| - |ka|..];
  }

  ghost predicate AgreeOn(events: seq<EventEnvelope>, a: set<EventId>, b: set<EventId>) {
    forall e :: e in events ==> (e.id in a <==> e.id in b)
  }

  /** Sweeping at `t1` and again at `t2` keeps a suffix of what the one sweep at `t2` keeps, and sweeping
      twice at one instant is sweeping once. The second sweep may see any delivered set that agrees with
      the first on what was kept, as the trimmed journal does. */
  lemma SweepsCompose(events: seq<EventEnvelope>, delivered: set<EventId>, again: set<EventId>,
      policy: AutoRetention, t1: int, t2: int, size: EventEnvelope -> nat)
    requires t1 <= t2
    requires AgreeOn(Retained(events, delivered, policy, t1, size), delivered, again)
    ensures
      var first := Retained(events, delivered, policy, t1, size);
      var second := Retained(first, again, policy, t2, size);
      && IsSuffix(second, Retained(events, delivered, policy, t2, size))
      && (t1 == t2 ==> second == first)
  {
    var p1, p2 := Survives(delivered, policy, t1), Survives(delivered, policy, t2);
    var survivors := Filter(p1, events);
    var first := Retained(events, delivered, policy, t1, size);
    SizeBoundIsLongestFit(size, policy, survivors);
    FilterSame(Survives(again, policy, t2), p2, first);
    FilterOfSuffix(p2, first, survivors);
    FilterAbsorb(p1, p2, events);
    SizeBoundOfSuffix(size, policy, Filter(p2, first), Filter(p2, events));
    if t1 == t2 {
      forall e | e in first
        ensures p2(e)
      {
        FilterMember(p1, events, e);
      }
      FilterAll(p2, first);
    }
  }

  /** The bounds of a suffix and of the whole agree if and only if the suffix is the whole, or the newest record
      the suffix lacks does not fit with it. */
  lemma SizeBoundsAgreeIff<T>(size: T -> nat, policy: AutoRetention, a: seq<T>, b: seq<T>)
    requires IsSuffix(a, b)
    ensures SizeBound(size, policy, a) == SizeBound(size, policy, b)
       <==> |a| == |b| || !Fits(size, policy, b[|b| - |a| - 1..])
  {
    WholeSuffix(a, b);
    hide Fits, SizeBound, LongestFit, IsSuffix;
    var ka, kb := SizeBound(size, policy, a), SizeBound(size, policy, b);
    if |a| < |b| {
      BoundIsSuffix(size, policy, a);
      KeptIffFits(size, policy, b, |b| - |a| - 1);
      if |kb| <= |a| {
        SizeBoundIsLongestFit(size, policy, a);
        SizeBoundIsLongestFit(size, policy, b);
        LongestFitOfSuffix(size, policy, kb, a, b);
        LongestFitIsUnique(size, policy, ka, kb, a);
      }
    }
  }

  lemma WholeSuffix<T>(a: seq<T>, b: seq<T>)
    requires IsSuffix(a, b)
    ensures |a| <= |b| && (|a| == |b| ==> a == b)
  {
  }

  lemma BoundIsSuffix<T>(size: T -> nat, policy: AutoRetention, s: seq<T>)
    ensures IsSuffix(SizeBound(size, policy, s), s) && |SizeBound(size, policy, s)| <= |s|
  {
    SizeBoundIsLongestFit(size, policy, s);
  }

  lemma LongestFitOfSuffix<T>(size: T -> nat, policy: AutoRetention, kept: seq<T>, a: seq<T>, b: seq<T>)
    requires LongestFit(size, policy, kept, b) && |kept| <= |a| && IsSuffix(a, b)
    ensures LongestFit(size, policy, kept, a)
  {
    hide Fits;
    assert kept == a[|a| - |kept|..];
    forall i | 0 <= i < |a| - |kept|
      ensures !Fits(size, policy, a[i..])
    {
      assert b[|b| - |a| + i..] == a[i..];
    }
  }

  /** Exactly when sweeping at `t1` and again at `t2` keeps what the one sweep at `t2` keeps: when the size bounds
      of the first sweep dropped no event that would survive the age filter at `t2`, or when the newest they dropped
      does not fit with the later ones either. */
  lemma SweepsAgreeIff(events: seq<EventEnvelope>, delivered: set<EventId>, again: set<EventId>,
      policy: AutoRetention, t1: int, t2: int, size: EventEnvelope -> nat)
    requires t1 <= t2
    requires AgreeOn(Retained(events, delivered, policy, t1, size), delivered, again)
    ensures
      var late := Survives(delivered, policy, t2);
      var first := Retained(events, delivered, policy, t1, size);
      var remaining, all := Filter(late, first), Filter(late, events);
      && IsSuffix(remaining, all)
      && (Retained(first, again, policy, t2, size) == Retained(events, delivered, policy, t2, size) <==>
            |remaining| == |all| || !Fits(size, policy, all[|all| - |remaining| - 1..]))
  {
    hide Survives, SizeBound, Fits, Filter, IsSuffix, AgreeOn, Retained;
    var early, late := Survives(delivered, policy, t1), Survives(delivered, policy, t2);
    var first := Retained(events, delivered, policy, t1, size);
    LateSurvivors(events, delivered, again, policy, t1, t2, size);
    SizeBoundsAgreeIff(size, policy, Filter(late, first), Filter(late, events));
    WholeSuffix(Filter(late, first), Filter(late, events));
  }

  /** The survivors at `t2` of the first sweep are a suffix of those of the log, and both sweeps bound survivors. */
  lemma LateSurvivors(events: seq<EventEnvelope>, delivered: set<EventId>, again: set<EventId>,
      policy: AutoRetention, t1: int, t2: int, size: EventEnvelope -> nat)
    requires t1 <= t2
    requires AgreeOn(Retained(events, delivered, policy, t1, size), delivered, again)
    ensures
      var late := Survives(delivered, policy, t2);
      var first := Retained(events, delivered, policy, t1, size);
      && IsSuffix(Filter(late, first), Filter(late, events))
      && Retained(first, again, policy, t2, size) == SizeBound(size, policy, Filter(late, first))
      && Retained(events, delivered, policy, t2, size) == SizeBound(size, policy, Filter(late, events))
  {
    var early, late := Survives(delivered, policy, t1), Survives(delivered, policy, t2);
    var first := Retained(events, delivered, policy, t1, size);
    hide SizeBound, Fits, Filter, IsSuffix;
    FilterSame(Survives(again, policy, t2), late, first);
    FilterAbsorb(early, late, events);
    BoundIsSuffix(size, policy, Filter(early, events));
    FilterOfSuffix(late, first, Filter(early, events));
  }

  /** A policy without a count and without a byte bound makes sweeps agree always. */
  lemma SweepsAgreeWithoutSizeBounds(events: seq<EventEnvelope>, delivered: set<EventId>, again: set<EventId>,
      policy: AutoRetention, t1: int, t2: int, size: EventEnvelope -> nat)
    requires t1 <= t2 && policy.maxCount.None? && policy.maxBytes.None?
    requires AgreeOn(Retained(events, delivered, policy, t1, size), delivered, again)
    ensures Retained(Retained(events, delivered, policy, t1, size), again, policy, t2, size)
         == Retained(events, delivered, policy, t2, size)
  {
    SweepsAgreeIff(events, delivered, again, policy, t1, t2, size);
    FilterAbsorb(Survives(delivered, policy, t1), Survives(delivered, policy, t2), events);
  }

  /** An input on which they differ: a sweep that bounds the count before the grace runs out drops an undelivered
      event that the later sweep alone would have kept. */
  lemma SweepsNeedNotAgree(a: EventEnvelope, b: EventEnvelope, size: EventEnvelope -> nat)
    requires a.id != b.id && a.timestamp == b.timestamp == 0
    ensures
      var policy := AutoRetention(Some(5), None, Some(1), None);
      && Retained(Retained([a, b], {b.id}, policy, 0, size), {b.id}, policy, 10, size) == []
      && Retained([a, b], {b.id}, policy, 10, size) == [a]
  {
    var policy := AutoRetention(Some(5), None, Some(1), None);
    var early, late := Survives({b.id}, policy, 0), Survives({b.id}, policy, 10);
    assert [a, b][1..] == [b] && [b][1..] == [];
    FilterAll(early, [a, b]);
    assert SizeBound(size, policy, [a, b]) == [b];
    assert Filter(late, [b]) == [] && Filter(late, [a, b]) == [a] + [] == [a];
  }

  // ------------------------------------------------------------------ dead triggers

  function WithinAge(policy: AutoRetention, now: int): DeadTriggerRecord -> bool {
    (record: DeadTriggerRecord) => policy.maxAge.Some? ==> now - record.event.timestamp <= policy.maxAge.value
  }

  function RetainedDeadTriggers(records: seq<DeadTriggerRecord>, policy: AutoRetention, now: int,
      size: DeadTriggerRecord -> nat): seq<DeadTriggerRecord>
  {
    SizeBound(size, policy, Filter(WithinAge(policy, now), records))
  }

  /** The dead-trigger queue is bounded by the hard bounds alone: a record stays if and only if its event is within
      the age and it fits with the later ones that are; the kept records are the longest suffix of those that fits, the
      rewritten file obeys both bounds, and a policy with no hard bound keeps the whole queue. */
  lemma DeadTriggersGoOnlyForHardBounds(records: seq<DeadTriggerRecord>, policy: AutoRetention, now: int,
      c: Jsonl.Codec<DeadTriggerRecord>, d: DeadTriggerRecord)
    ensures
      var size := SerializedLength(c);
      var kept := RetainedDeadTriggers(records, policy, now, size);
      var young := Filter((d: DeadTriggerRecord) =>
                            policy.maxAge.Some? ==> now - d.event.timestamp <= policy.maxAge.value, records);
      && LongestFit(size, policy, kept, young)
      && (d in kept <==>
            && d in records && (policy.maxAge.Some? ==> now - d.event.timestamp <= policy.maxAge.value)
            && FitsWithLater(size, policy, young, d))
      && (policy.maxCount.Some? ==> |kept| <= policy.maxCount.value)
      && (policy.maxBytes.Some? ==> |Jsonl.EncodeAll(c, kept)| <= policy.maxBytes.value)
      && (policy.maxAge.None? && policy.maxCount.None? && policy.maxBytes.None? ==> kept == records)
  {
    var size := SerializedLength(c);
    var kept := RetainedDeadTriggers(records, policy, now, size);
    var isYoung := (d: DeadTriggerRecord) =>
      policy.maxAge.Some? ==> now - d.event.timestamp <= policy.maxAge.value;
    FilterSame(WithinAge(policy, now), isYoung, records);
    SizeBoundIsLongestFit(size, policy, Filter(isYoung, records));
    FitsMeans(c, policy, kept);
    FilterMember(isYoung, records, d);
    KeptExactly(size, policy, Filter(isYoung, records), d);
    if policy.GraceOnly() {
      FilterAll(isYoung, records);
    }
  }
}
