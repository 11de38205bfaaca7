/** Shared value types, and the generic filter the store and the runtime are specified with. */
module Base {

  datatype Option<+T> = None | Some(value: T)

  datatype Result<+T, +E> = Ok(value: T) | Err(error: E)

  type byte = b: int | 0 <= b < 256

  // ------------------------------------------------------------------ events

  predicate IsIdChar(c: char) {
    '0' <= c <= '9' || 'a' <= c <= 'f' || c == '-'
  }

  /** An event id, identified with its canonical UUID text (what `Display` prints). */
  type EventId = s: string | forall i :: 0 <= i < |s| ==> IsIdChar(s[i]) witness "0"

  datatype Source = Http | GitHub | Discord | Slack | Cron | Manual

  datatype EventMetadata = EventMetadata(
    traceId: Option<string>,
    correlationId: Option<string>,
    tenantId: Option<string>,
    idempotencyKey: Option<string>,
    causationId: Option<string>)

  /** `timestamp` counts nanoseconds. */
  datatype EventEnvelope = EventEnvelope(
    id: EventId,
    source: Source,
    eventType: string,
    payload: seq<byte>,
    timestamp: int,
    metadata: EventMetadata)

  datatype DeadTriggerRecord = DeadTriggerRecord(event: EventEnvelope, triggerName: string, error: string)

  // ------------------------------------------------------------------ sequences

  ghost predicate IsSuffix<T>(a: seq<T>, b: seq<T>) {
    |a| <= |b| && a == b[|b| - |a|..]
  }

  /** The elements satisfying `p`, in order. */
  function Filter<T>(p: T -> bool, s: seq<T>): (r: seq<T>) {
    if s == [] then []
    else if p(s[0]) then [s[0]] + Filter(p, s[1..])
    else Filter(p, s[1..])
  }

  lemma {:induction false} FilterConcat<T>(p: T -> bool, a: seq<T>, b: seq<T>)
    ensures Filter(p, a + b) == Filter(p, a) + Filter(p, b)
  {
    if a == [] {
      assert a + b == b;
    } else {
      assert (a + b)[1..] == a[1..] + b;
      FilterConcat(p, a[1..], b);
    }
  }

  lemma {:induction false} FilterMember<T>(p: T -> bool, s: seq<T>, x: T)
    ensures x in Filter(p, s) <==> x in s && p(x)
  {
    if s != [] { FilterMember(p, s[1..], x); }
  }

  lemma {:induction false} FilterLength<T>(p: T -> bool, s: seq<T>)
    ensures |Filter(p, s)| <= |s|
    ensures |Filter(p, s)| == |s| ==> Filter(p, s) == s
  {
    if s != [] { FilterLength(p, s[1..]); }
  }

  lemma {:induction false} FilterAll<T>(p: T -> bool, s: seq<T>)
    requires forall x :: x in s ==> p(x)
    ensures Filter(p, s) == s
  {
    if s != [] { FilterAll(p, s[1..]); }
  }

  lemma {:induction false} FilterSame<T>(p: T -> bool, q: T -> bool, s: seq<T>)
    requires forall x :: x in s ==> p(x) == q(x)
    ensures Filter(p, s) == Filter(q, s)
  {
    if s != [] { FilterSame(p, q, s[1..]); }
  }

  /** A stronger filter absorbs a weaker one that ran before it. */
  lemma {:induction false} FilterAbsorb<T>(p: T -> bool, q: T -> bool, s: seq<T>)
    requires forall x :: x in s && q(x) ==> p(x)
    ensures Filter(q, Filter(p, s)) == Filter(q, s)
  {
    if s != [] { FilterAbsorb(p, q, s[1..]); }
  }

  /** What a filter keeps of a suffix is a suffix of what it keeps of the whole. */
  lemma FilterOfSuffix<T>(p: T -> bool, a: seq<T>, b: seq<T>)
    requires IsSuffix(a, b)
    ensures IsSuffix(Filter(p, a), Filter(p, b))
  {
    var front := b[..|b| - |a|];
    assert b == front + a;
    FilterConcat(p, front, a);
  }

  lemma SuffixAt<T>(s: seq<T>, i: nat)
    requires i <= |s|
    ensures IsSuffix(s[i..], s)
  {
  }

  lemma SuffixIsShorter<T>(a: seq<T>, b: seq<T>)
    requires IsSuffix(a, b)
    ensures |a| <= |b|
  {
  }

  lemma SuffixTransitive<T>(a: seq<T>, b: seq<T>, c: seq<T>)
    requires IsSuffix(a, b) && IsSuffix(b, c)
    ensures IsSuffix(a, c)
  {
    assert c == c[..|c| - |b|] + b;
    assert b == b[..|b| - |a|] + a;
    assert c == (c[..|c| - |b|] + b[..|b| - |a|]) + a;
  }

  /** The first element satisfying `p`. */
  function First<T>(p: T -> bool, s: seq<T>): Option<T> {
    if s == [] then None else if p(s[0]) then Some(s[0]) else First(p, s[1..])
  }

  /** `First` finds an element satisfying `p` that no other comes before, if there is any. */
  lemma {:induction false} FirstIsFirst<T>(p: T -> bool, s: seq<T>)
    ensures First(p, s).None? <==> forall x :: x in s ==> !p(x)
    ensures First(p, s).Some? ==>
      exists i :: 0 <= i < |s| && s[i] == First(p, s).value && p(s[i]) && forall j :: 0 <= j < i ==> !p(s[j])
  {
    if s != [] && !p(s[0]) {
      FirstIsFirst(p, s[1..]);
      if First(p, s).Some? {
        var i :| 0 <= i < |s| - 1 && s[1..][i] == First(p, s).value && p(s[1..][i])
                 && forall j :: 0 <= j < i ==> !p(s[1..][j]);
        assert forall j :: 0 <= j < i + 1 ==> !p(s[j]) by {
          assert forall j :: 1 <= j < i + 1 ==> s[j] == s[1..][j - 1];
        }
        assert s[i + 1] == First(p, s).value;
      }
    }
  }

  function Elements<T>(s: seq<T>): set<T> {
    set x | x in s
  }

  /** `a` is `b` with some elements left out. */
  ghost predicate IsSubsequence<T>(a: seq<T>, b: seq<T>) {
    a == [] || (b != [] && ((a[0] == b[0] && IsSubsequence(a[1..], b[1..])) || IsSubsequence(a, b[1..])))
  }

  lemma {:induction false} SubsequenceReflexive<T>(a: seq<T>)
    ensures IsSubsequence(a, a)
  {
    if a != [] { SubsequenceReflexive(a[1..]); }
  }

  lemma {:induction false} SubsequenceAppend<T>(a: seq<T>, b: seq<T>, x: T)
    requires IsSubsequence(a, b)
    ensures IsSubsequence(a + [x], b + [x]) && IsSubsequence(a, b + [x])
  {
    if b == [] {
      assert a + [x] == [x] && b + [x] == [x];
    } else {
      assert (b + [x])[1..] == b[1..] + [x];
      if a != [] && a[0] == b[0] && IsSubsequence(a[1..], b[1..]) {
        assert (a + [x])[1..] == a[1..] + [x];
        SubsequenceAppend(a[1..], b[1..], x);
      } else if a != [] {
        SubsequenceAppend(a, b[1..], x);
      } else {
        assert a + [x] == [x];
        SubsequenceAppend(a, b[1..], x);
      }
    }
  }

  lemma {:induction false} FilterIsSubsequence<T>(p: T -> bool, s: seq<T>)
    ensures IsSubsequence(Filter(p, s), s)
  {
    if s != [] { FilterIsSubsequence(p, s[1..]); }
  }

  lemma {:induction false} FilterSingle<T>(p: T -> bool, s: seq<T>, k: nat)
    requires k < |s| && p(s[k]) && forall i :: 0 <= i < |s| && i != k ==> !p(s[i])
    ensures Filter(p, s) == [s[k]]
  {
    if k > 0 {
      FilterSingle(p, s[1..], k - 1);
    } else {
      FilterNothing(p, s[1..]);
    }
  }

  lemma {:induction false} FilterNothing<T>(p: T -> bool, s: seq<T>)
    requires forall x :: x in s ==> !p(x)
    ensures Filter(p, s) == []
  {
    if s != [] { FilterNothing(p, s[1..]); }
  }

  ghost predicate Distinct<T>(s: seq<T>) {
    forall i, j :: 0 <= i < j < |s| ==> s[i] != s[j]
  }
}
