/** Trigger conditions, the configuration that builds them, and the registry that orders and selects them. */
module Registry {
  import opened Base

  /** A JSON value, by its canonical text. */
  type Json = string

  /** The value at a JSON pointer of a payload, if the payload is JSON and the pointer resolves. */
  type PayloadReader = (seq<byte>, string) -> Option<Json>

  // ------------------------------------------------------------------ conditions

  datatype Trigger =
    | EventTypeTrigger(eventType: string)
    | PayloadFieldEquals(pointer: string, expected: Json)
    | AllOf(triggers: seq<Trigger>)
    | AnyOf(triggers: seq<Trigger>)
  {
    predicate Matches(read: PayloadReader, e: EventEnvelope)
      decreases this, 0
    {
      match this
      case EventTypeTrigger(eventType) => e.eventType == eventType
      case PayloadFieldEquals(pointer, expected) => read(e.payload, pointer) == Some(expected)
      case AllOf(triggers) => EveryMatches(triggers, read, e)
      case AnyOf(triggers) => SomeMatches(triggers, read, e)
    }
  }

  predicate EveryMatches(triggers: seq<Trigger>, read: PayloadReader, e: EventEnvelope)
    decreases triggers, 1
  {
    triggers == [] || (triggers[0].Matches(read, e) && EveryMatches(triggers[1..], read, e))
  }

  predicate SomeMatches(triggers: seq<Trigger>, read: PayloadReader, e: EventEnvelope)
    decreases triggers, 1
  {
    triggers != [] && (triggers[0].Matches(read, e) || SomeMatches(triggers[1..], read, e))
  }

  /** The declarative condition of a configuration entry. */
  datatype MatchSpec =
    | EventTypeSpec(eventType: string)
    | PayloadFieldSpec(pointer: string, value: Json)
    | AllOfSpec(conditions: seq<MatchSpec>)
    | AnyOfSpec(conditions: seq<MatchSpec>)
  {
    /** What the document says. */
    ghost predicate Holds(read: PayloadReader, e: EventEnvelope) {
      match this
      case EventTypeSpec(eventType) => e.eventType == eventType
      case PayloadFieldSpec(pointer, value) => read(e.payload, pointer) == Some(value)
      case AllOfSpec(conditions) => forall c | c in conditions :: c.Holds(read, e)
      case AnyOfSpec(conditions) => exists c | c in conditions :: c.Holds(read, e)
    }
  }

  function BuildCondition(spec: MatchSpec): Trigger
    decreases spec, 0
  {
    match spec
    case EventTypeSpec(eventType) => EventTypeTrigger(eventType)
    case PayloadFieldSpec(pointer, value) => PayloadFieldEquals(pointer, value)
    case AllOfSpec(conditions) => AllOf(BuildConditions(conditions))
    case AnyOfSpec(conditions) => AnyOf(BuildConditions(conditions))
  }

  function BuildConditions(specs: seq<MatchSpec>): seq<Trigger>
    decreases specs, 1
  {
    if specs == [] then [] else [BuildCondition(specs[0])] + BuildConditions(specs[1..])
  }

  /** The built trigger matches exactly the events of which the configured condition holds, however deeply
      all_of and any_of nest. */
  lemma {:induction false} BuiltConditionMeansSpec(spec: MatchSpec, read: PayloadReader, e: EventEnvelope)
    ensures BuildCondition(spec).Matches(read, e) <==> spec.Holds(read, e)
    decreases spec, 0
  {
    match spec
    case EventTypeSpec(_) =>
    case PayloadFieldSpec(_, _) =>
    case AllOfSpec(conditions) => BuiltConditionsMeanSpecs(conditions, read, e);
    case AnyOfSpec(conditions) => BuiltConditionsMeanSpecs(conditions, read, e);
  }

  lemma {:induction false} BuiltConditionsMeanSpecs(specs: seq<MatchSpec>, read: PayloadReader, e: EventEnvelope)
    ensures EveryMatches(BuildConditions(specs), read, e) <==> forall c | c in specs :: c.Holds(read, e)
    ensures SomeMatches(BuildConditions(specs), read, e) <==> exists c | c in specs :: c.Holds(read, e)
    decreases specs, 1
  {
    if specs != [] {
      var built := BuildConditions(specs);
      assert built[1..] == BuildConditions(specs[1..]);
      BuiltConditionMeansSpec(specs[0], read, e);
      BuiltConditionsMeanSpecs(specs[1..], read, e);
      assert forall c :: c in specs <==> c == specs[0] || c in specs[1..];
    }
  }

  // ------------------------------------------------------------------ bindings

  datatype WorklaneJob = WorklaneJob(lane: string, kind: string, payload: seq<byte>, maxAttempts: nat)

  datatype WorklaneJobBinding = WorklaneJobBinding(
    lane: string,
    kind: string,
    maxAttempts: nat,
    transform: Option<EventEnvelope -> Result<seq<byte>, string>>)
  {
    function Bind(e: EventEnvelope): Result<WorklaneJob, string> {
      match transform
      case None => Ok(WorklaneJob(lane, kind, e.payload, maxAttempts))
      case Some(shape) =>
        match shape(e)
        case Ok(payload) => Ok(WorklaneJob(lane, kind, payload, maxAttempts))
        case Err(rejected) => Err(rejected)
    }
  }

  datatype RegisteredTrigger = RegisteredTrigger(
    name: string,
    priority: int,
    enabled: bool,
    trigger: Trigger,
    binding: WorklaneJobBinding)

  // ------------------------------------------------------------------ stable order

  ghost predicate SortedByPriority(s: seq<RegisteredTrigger>) {
    forall i, j :: 0 <= i < j < |s| ==> s[i].priority >= s[j].priority
  }

  function WithPriority(p: int): RegisteredTrigger -> bool {
    (r: RegisteredTrigger) => r.priority == p
  }

  function InsertByPriority(r: RegisteredTrigger, s: seq<RegisteredTrigger>): seq<RegisteredTrigger> {
    if s == [] || s[0].priority <= r.priority then [r] + s else [s[0]] + InsertByPriority(r, s[1..])
  }

  /** The library's stable sort, highest priority first. */
  function StableSort(s: seq<RegisteredTrigger>): seq<RegisteredTrigger> {
    if s == [] then [] else InsertByPriority(s[0], StableSort(s[1..]))
  }

  /** The same triggers of each priority, in the same order. */
  ghost predicate SameClasses(a: seq<RegisteredTrigger>, b: seq<RegisteredTrigger>) {
    forall p :: Filter(WithPriority(p), a) == Filter(WithPriority(p), b)
  }

  lemma {:induction false} InsertSorts(r: RegisteredTrigger, s: seq<RegisteredTrigger>)
    requires SortedByPriority(s)
    ensures SortedByPriority(InsertByPriority(r, s))
    ensures forall x :: x in InsertByPriority(r, s) ==> x == r || x in s
  {
    if s != [] && s[0].priority > r.priority {
      InsertSorts(r, s[1..]);
      var rest := InsertByPriority(r, s[1..]);
      assert forall i :: 0 <= i < |rest| ==> rest[i] in rest;
    }
  }

  lemma {:induction false} InsertKeepsClasses(r: RegisteredTrigger, s: seq<RegisteredTrigger>, p: int)
    ensures Filter(WithPriority(p), InsertByPriority(r, s)) == Filter(WithPriority(p), [r] + s)
  {
    assert ([r] + s)[1..] == s;
    if s != [] && s[0].priority > r.priority {
      InsertKeepsClasses(r, s[1..], p);
      assert ([s[0]] + InsertByPriority(r, s[1..]))[1..] == InsertByPriority(r, s[1..]);
      assert ([r] + s[1..])[1..] == s[1..];
    }
  }

  lemma {:induction false} StableSortIsStable(s: seq<RegisteredTrigger>)
    ensures SortedByPriority(StableSort(s)) && SameClasses(StableSort(s), s)
  {
    if s != [] {
      var sorted := StableSort(s[1..]);
      StableSortIsStable(s[1..]);
      InsertSorts(s[0], sorted);
      forall p
        ensures Filter(WithPriority(p), StableSort(s)) == Filter(WithPriority(p), s)
      {
        InsertKeepsClasses(s[0], sorted, p);
        assert [s[0]] + s[1..] == s;
        ClassOfCons(s[0], sorted, s[1..], p);
      }
    }
  }

  lemma ClassOfCons(r: RegisteredTrigger, a: seq<RegisteredTrigger>, b: seq<RegisteredTrigger>, p: int)
    requires Filter(WithPriority(p), a) == Filter(WithPriority(p), b)
    ensures Filter(WithPriority(p), [r] + a) == Filter(WithPriority(p), [r] + b)
  {
    assert ([r] + a)[1..] == a && ([r] + b)[1..] == b;
  }

  lemma FirstOfClass(s: seq<RegisteredTrigger>)
    requires s != []
    ensures exists p :: Filter(WithPriority(p), s) != []
  {
    assert Filter(WithPriority(s[0].priority), s)[0] == s[0];
  }

  /** Sorted, and each class in its order: there is only one such list. */
  lemma {:induction false} StableOrderIsUnique(a: seq<RegisteredTrigger>, b: seq<RegisteredTrigger>)
    requires SortedByPriority(a) && SortedByPriority(b) && SameClasses(a, b)
    ensures a == b
  {
    if a == [] {
      if b != [] {
        FirstOfClass(b);
        assert false;
      }
    } else {
      var p := a[0].priority;
      assert Filter(WithPriority(p), a)[0] == a[0];
      assert Filter(WithPriority(p), a) == Filter(WithPriority(p), b);
      FilterMember(WithPriority(p), b, a[0]);
      assert Filter(WithPriority(b[0].priority), b)[0] == b[0];
      assert Filter(WithPriority(b[0].priority), a) == Filter(WithPriority(b[0].priority), b);
      FilterMember(WithPriority(b[0].priority), a, b[0]);
      assert b[0].priority == p;
      assert Filter(WithPriority(p), b)[0] == b[0];
      forall q
        ensures Filter(WithPriority(q), a[1..]) == Filter(WithPriority(q), b[1..])
      {
        assert Filter(WithPriority(q), a) == Filter(WithPriority(q), b);
        var drop := if p == q then 1 else 0;
        assert Filter(WithPriority(q), a[1..]) == Filter(WithPriority(q), a)[drop..];
        assert Filter(WithPriority(q), b[1..]) == Filter(WithPriority(q), b)[drop..];
      }
      StableOrderIsUnique(a[1..], b[1..]);
    }
  }

  /** Re-sorting after one more registration is sorting all registrations once. */
  lemma ResortIsOneSort(s: seq<RegisteredTrigger>, r: RegisteredTrigger)
    ensures StableSort(StableSort(s) + [r]) == StableSort(s + [r])
  {
    StableSortIsStable(s);
    StableSortIsStable(StableSort(s) + [r]);
    StableSortIsStable(s + [r]);
    forall p
      ensures Filter(WithPriority(p), StableSort(StableSort(s) + [r])) == Filter(WithPriority(p), StableSort(s + [r]))
    {
      FilterConcat(WithPriority(p), StableSort(s), [r]);
      FilterConcat(WithPriority(p), s, [r]);
    }
    StableOrderIsUnique(StableSort(StableSort(s) + [r]), StableSort(s + [r]));
  }

  // ------------------------------------------------------------------ the registry

  /** Which registrations `matching` yields. */
  function Selects(read: PayloadReader, e: EventEnvelope): RegisteredTrigger -> bool {
    (r: RegisteredTrigger) => r.enabled && r.trigger.Matches(read, e)
  }

  class TriggerRegistry {
    var registrations: seq<RegisteredTrigger>
    /** Every registration so far, in the order made. */
    ghost var registered: seq<RegisteredTrigger>

    ghost predicate Valid()
      reads this
    {
      registrations == StableSort(registered)
    }

    constructor ()
      ensures Valid() && registered == []
    {
      registrations, registered := [], [];
    }

    method Register(registration: RegisteredTrigger)
      requires Valid()
      modifies this
      ensures Valid() && registered == old(registered) + [registration]
    {
      ResortIsOneSort(registered, registration);
      registrations := StableSort(registrations + [registration]);
      registered := registered + [registration];
    }

    function Matching(read: PayloadReader, e: EventEnvelope): seq<RegisteredTrigger>
      reads this
    {
      Filter(Selects(read, e), registrations)
    }
  }

  // ------------------------------------------------------------------ configuration

  datatype TriggerEntry = TriggerEntry(
    name: string,
    priority: int,
    enabled: bool,
    condition: MatchSpec,
    lane: string,
    kind: string,
    maxAttempts: nat)

  function BuildEntry(entry: TriggerEntry): RegisteredTrigger {
    RegisteredTrigger(entry.name, entry.priority, entry.enabled, BuildCondition(entry.condition),
                      WorklaneJobBinding(entry.lane, entry.kind, entry.maxAttempts, None))
  }

  function BuildEntries(entries: seq<TriggerEntry>): seq<RegisteredTrigger> {
    if entries == [] then [] else [BuildEntry(entries[0])] + BuildEntries(entries[1..])
  }

  lemma {:induction false} BuildEntriesAppend(entries: seq<TriggerEntry>, entry: TriggerEntry)
    ensures BuildEntries(entries + [entry]) == BuildEntries(entries) + [BuildEntry(entry)]
  {
    if entries != [] {
      assert (entries + [entry])[1..] == entries[1..] + [entry];
      BuildEntriesAppend(entries[1..], entry);
    }
  }

  method ParseRegistry(entries: seq<TriggerEntry>) returns (registry: TriggerRegistry)
    ensures fresh(registry) && registry.Valid() && registry.registered == BuildEntries(entries)
  {
    registry := new TriggerRegistry();
    for i := 0 to |entries|
      invariant registry.Valid() && fresh(registry) && registry.registered == BuildEntries(entries[..i])
    {
      var entry := entries[i];
      var binding := WorklaneJobBinding(entry.lane, entry.kind, entry.maxAttempts, None);
      var registration := RegisteredTrigger(entry.name, entry.priority, true, BuildCondition(entry.condition), binding);
      if !entry.enabled {
        registration := registration.(enabled := false);
      }
      BuildEntriesAppend(entries[..i], entry);
      assert entries[..i + 1] == entries[..i] + [entry];
      registry.Register(registration);
    }
    assert entries[..|entries|] == entries;
  }

  /** The entries of priority `p` that should route the event. */
  ghost function Routes(read: PayloadReader, e: EventEnvelope, p: int): TriggerEntry -> bool {
    (entry: TriggerEntry) => entry.priority == p && entry.enabled && entry.condition.Holds(read, e)
  }

  /** For every document, an event is routed to exactly the enabled entries whose condition holds, highest
      priority first, ties in document order. */
  lemma RoutingMeansConfiguration(entries: seq<TriggerEntry>, read: PayloadReader, e: EventEnvelope)
    ensures
      var matching := Filter(Selects(read, e), StableSort(BuildEntries(entries)));
      && SortedByPriority(matching)
      && forall p :: Filter(WithPriority(p), matching) == BuildEntries(Filter(Routes(read, e, p), entries))
  {
    var all := StableSort(BuildEntries(entries));
    StableSortIsStable(BuildEntries(entries));
    FilterKeepsOrder(Selects(read, e), all);
    forall p
      ensures Filter(WithPriority(p), Filter(Selects(read, e), all))
           == BuildEntries(Filter(Routes(read, e, p), entries))
    {
      FiltersCommute(WithPriority(p), Selects(read, e), all);
      FiltersCommute(WithPriority(p), Selects(read, e), BuildEntries(entries));
      RoutedClass(entries, read, e, p);
    }
  }

  /** The same of a registry that holds the document's entries. */
  lemma RegistryMeansConfiguration(registry: TriggerRegistry, entries: seq<TriggerEntry>, read: PayloadReader,
      e: EventEnvelope)
    requires registry.Valid() && registry.registered == BuildEntries(entries)
    ensures SortedByPriority(registry.Matching(read, e))
    ensures forall p :: Filter(WithPriority(p), registry.Matching(read, e))
                     == BuildEntries(Filter(Routes(read, e, p), entries))
  {
    RoutingMeansConfiguration(entries, read, e);
  }

  lemma {:induction false} FiltersCommute<T>(p: T -> bool, q: T -> bool, s: seq<T>)
    ensures Filter(p, Filter(q, s)) == Filter(q, Filter(p, s))
  {
    if s != [] { FiltersCommute(p, q, s[1..]); }
  }

  lemma {:induction false} FilterKeepsOrder(p: RegisteredTrigger -> bool, s: seq<RegisteredTrigger>)
    requires SortedByPriority(s)
    ensures SortedByPriority(Filter(p, s))
  {
    if s != [] {
      var rest := Filter(p, s[1..]);
      FilterKeepsOrder(p, s[1..]);
      forall i | 0 <= i < |rest|
        ensures s[0].priority >= rest[i].priority
      {
        FilterMember(p, s[1..], rest[i]);
      }
    }
  }

  lemma {:induction false} RoutedClass(entries: seq<TriggerEntry>, read: PayloadReader, e: EventEnvelope, p: int)
    ensures Filter(Selects(read, e), Filter(WithPriority(p), BuildEntries(entries)))
         == BuildEntries(Filter(Routes(read, e, p), entries))
  {
    if entries != [] {
      BuiltConditionMeansSpec(entries[0].condition, read, e);
      RoutedClass(entries[1..], read, e, p);
      var built := BuildEntries(entries);
      assert built[1..] == BuildEntries(entries[1..]);
    }
  }

  // ------------------------------------------------------------------ submission keys

  /** The idempotency key when there is one, else the event id. */
  function Identity(e: EventEnvelope): string {
    match e.metadata.idempotencyKey
    case Some(key) => key
    case None => e.id
  }

  function SubmissionKey(identity: string, name: string): string {
    identity + ":" + name
  }

  ghost predicate EndsWith(s: string, tail: string) {
    |tail| <= |s| && s[|s| - |tail|..] == tail
  }

  function TriggerNames(registrations: seq<RegisteredTrigger>): (names: seq<string>)
    ensures |names| == |registrations| && forall i :: 0 <= i < |names| ==> names[i] == registrations[i].name
  {
    seq(|registrations|, i requires 0 <= i < |registrations| => registrations[i].name)
  }

  /** No name ends with a colon and a name of the list. */
  ghost predicate Unambiguous(names: seq<string>) {
    forall m, n :: 0 <= m < |names| && 0 <= n < |names| ==> !EndsWith(names[m], ":" + names[n])
  }

  /** Equal keys have equal identities and come from one position of the list. */
  ghost predicate KeysTellApart(names: seq<string>) {
    forall i, m, j, n ::
      0 <= m < |names| && 0 <= n < |names| && SubmissionKey(i, names[m]) == SubmissionKey(j, names[n]) ==>
        i == j && m == n
  }

  /** Different (identity, registration) pairs get different keys, for every identity there could be, if and only
      if no two registrations share a name and no name ends with a colon and a registered name. */
  lemma KeysTellApartIff(names: seq<string>)
    ensures KeysTellApart(names) <==> Distinct(names) && Unambiguous(names)
  {
    hide SubmissionKey, EndsWith;
    if !Distinct(names) {
      var m, n :| 0 <= m < n < |names| && names[m] == names[n];
      assert SubmissionKey("", names[m]) == SubmissionKey("", names[n]);
    } else if !Unambiguous(names) {
      var m, n :| 0 <= m < |names| && 0 <= n < |names| && EndsWith(names[m], ":" + names[n]);
      var j := Ambiguity("", names[m], names[n]);
    } else {
      forall i, m, j, n | 0 <= m < |names| && 0 <= n < |names|
                          && SubmissionKey(i, names[m]) == SubmissionKey(j, names[n])
        ensures i == j && m == n
      {
        SameKey(i, names[m], j, names[n]);
      }
    }
  }

  /** An identity that gives the shorter name the key identity `i` gives the longer one. */
  lemma Ambiguity(i: string, m: string, n: string) returns (j: string)
    requires EndsWith(m, ":" + n)
    ensures SubmissionKey(i, m) == SubmissionKey(j, n) && |j| > |i|
  {
    var q := m[..|m| - |n| - 1];
    assert m == q + (":" + n);
    j := i + ":" + q;
    assert i + ":" + m == j + (":" + n);
    assert SubmissionKey(j, n) == j + (":" + n);
  }

  lemma SameKey(i: string, m: string, j: string, n: string)
    requires SubmissionKey(i, m) == SubmissionKey(j, n)
    ensures (i == j && m == n) || EndsWith(m, ":" + n) || EndsWith(n, ":" + m)
  {
    if |m| > |n| {
      SameKeyLongerName(i, m, j, n);
    } else if |n| > |m| {
      SameKeyLongerName(j, n, i, m);
    } else {
      var key := SubmissionKey(i, m);
      assert key[|i| + 1..] == m && key[|j| + 1..] == n;
      assert key[..|i|] == i && key[..|j|] == j;
    }
  }

  lemma SameKeyLongerName(i: string, m: string, j: string, n: string)
    requires SubmissionKey(i, m) == SubmissionKey(j, n) && |m| > |n|
    ensures EndsWith(m, ":" + n)
  {
    var key := SubmissionKey(i, m);
    assert key[|i| + 1..] == m;
    assert key[|j|..] == ":" + n;
    assert m[|m| - |n| - 1..] == key[|j|..];
  }

  /** Distinct names without colons are enough. */
  lemma NoColonsSuffices(names: seq<string>)
    requires Distinct(names) && forall m :: 0 <= m < |names| ==> ':' !in names[m]
    ensures KeysTellApart(names)
  {
    forall m: string, n: string | EndsWith(m, ":" + n)
      ensures ':' in m
    {
      assert m[|m| - |n| - 1..][0] == ':';
    }
    KeysTellApartIff(names);
  }
}
