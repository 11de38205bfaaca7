/** Any number of threads on one file event store, down to single lock acquisitions, writes and swaps. */
module StoreThreads {
  import opened Base
  import opened Jsonl
  import opened Retention
  import opened EventStores

  // ------------------------------------------------------------------ locks and threads

  datatype Lock = LogFile | LogRecords | JournalFile | JournalRecords | DeliveredSet
  {
    /** Where a lock comes in the acquisition order. */
    function Rank(): nat {
      if LogRecords? || JournalRecords? then 1 else 0
    }
  }

  /** Where a thread is in its operation. */
  datatype Thread =
    | Idle
    // append
    | AppendLock(e: EventEnvelope) | AppendWrite(e: EventEnvelope) | AppendLockRecords(e: EventEnvelope)
    | AppendPush(e: EventEnvelope) | AppendUnlock
    // get, all, len, find
    | ReadLock | Reading
    // undelivered
    | PendingLock | PendingLockRecords | PendingRead | PendingFilter
    // mark_delivered
    | MarkLock(id: EventId) | MarkCheck(id: EventId) | MarkLockFile(id: EventId) | MarkWrite(id: EventId)
    | MarkLockRecords(id: EventId) | MarkPush(id: EventId) | MarkUnlock(id: EventId)
    | MarkLockSet(id: EventId) | MarkInsert(id: EventId)
    // enforce_retention
    | SweepLock(policy: AutoRetention, now: int) | SweepSnapshot(policy: AutoRetention, now: int)
    | SweepLockFile(policy: AutoRetention, now: int, snapshot: set<EventId>)
    | SweepLockRecords(policy: AutoRetention, now: int, snapshot: set<EventId>)
    | SweepCompact(policy: AutoRetention, now: int, snapshot: set<EventId>)
    | SweepSwap(policy: AutoRetention, now: int, snapshot: set<EventId>, kept: seq<EventEnvelope>)
    | TrimLockFile(list: seq<EventId>) | TrimLockRecords(list: seq<EventId>) | TrimCompact(list: seq<EventId>)
    | TrimSwap(list: seq<EventId>) | ResetLock(ids: set<EventId>) | ResetSet(ids: set<EventId>)
    // prune
    | PruneLock(cut: ManualRetention) | PruneLockRecords(cut: ManualRetention) | PruneCompact(cut: ManualRetention)
    | PruneSwap(kept: seq<EventEnvelope>)
  {
    /** The lock the thread is about to take. */
    function Wants(): Option<Lock> {
      if AppendLock? || SweepLockFile? || PruneLock? then Some(LogFile)
      else if AppendLockRecords? || ReadLock? || PendingLockRecords? || SweepLockRecords? || PruneLockRecords? then
        Some(LogRecords)
      else if PendingLock? || MarkLock? || MarkLockSet? || SweepLock? || ResetLock? then Some(DeliveredSet)
      else if MarkLockFile? || TrimLockFile? then Some(JournalFile)
      else if MarkLockRecords? || TrimLockRecords? then Some(JournalRecords)
      else None
    }

    function Holds(): set<Lock> {
      match this
      case AppendWrite(_) => {LogFile}
      case AppendLockRecords(_) => {LogFile}
      case AppendPush(_) => {LogFile, LogRecords}
      case AppendUnlock => {LogFile}
      case Reading => {LogRecords}
      case PendingLockRecords => {DeliveredSet}
      case PendingRead => {DeliveredSet, LogRecords}
      case PendingFilter => {DeliveredSet}
      case MarkCheck(_) => {DeliveredSet}
      case MarkWrite(_) => {JournalFile}
      case MarkLockRecords(_) => {JournalFile}
      case MarkPush(_) => {JournalFile, JournalRecords}
      case MarkUnlock(_) => {JournalFile}
      case MarkInsert(_) => {DeliveredSet}
      case SweepSnapshot(_, _) => {DeliveredSet}
      case SweepLockRecords(_, _, _) => {LogFile}
      case SweepCompact(_, _, _) => {LogFile, LogRecords}
      case SweepSwap(_, _, _, _) => {LogFile, LogRecords}
      case TrimLockRecords(_) => {JournalFile}
      case TrimCompact(_) => {JournalFile, JournalRecords}
      case TrimSwap(_) => {JournalFile, JournalRecords}
      case ResetSet(_) => {DeliveredSet}
      case PruneLockRecords(_) => {LogFile}
      case PruneCompact(_) => {LogFile, LogRecords}
      case PruneSwap(_) => {LogFile, LogRecords}
      case _ => {}
    }

    /** The thread once the lock it wants is its own. */
    function Granted(): Thread {
      match this
      case AppendLock(e) => AppendWrite(e)
      case AppendLockRecords(e) => AppendPush(e)
      case ReadLock => Reading
      case PendingLock => PendingLockRecords
      case PendingLockRecords => PendingRead
      case MarkLock(id) => MarkCheck(id)
      case MarkLockFile(id) => MarkWrite(id)
      case MarkLockRecords(id) => MarkPush(id)
      case MarkLockSet(id) => MarkInsert(id)
      case SweepLock(policy, now) => SweepSnapshot(policy, now)
      case SweepLockFile(policy, now, snapshot) => SweepLockRecords(policy, now, snapshot)
      case SweepLockRecords(policy, now, snapshot) => SweepCompact(policy, now, snapshot)
      case TrimLockFile(list) => TrimLockRecords(list)
      case TrimLockRecords(list) => TrimCompact(list)
      case ResetLock(ids) => ResetSet(ids)
      case PruneLock(cut) => PruneLockRecords(cut)
      case PruneLockRecords(cut) => PruneCompact(cut)
      case _ => this
    }

    /** The first point of an operation. */
    predicate Begins() {
      AppendLock? || ReadLock? || PendingLock? || MarkLock? || PruneLock? || (SweepLock? && !policy.IsUnbounded())
    }
  }

  /** The two files and what memory holds of them; and, as history, the events ever appended, the ids ever
      passed to mark_delivered, the undelivered events a sweep or a prune removed, and whether so far every
      sweep was under a grace-only policy and nothing was pruned. */
  datatype Store = Store(
    logFile: seq<byte>,
    log: seq<EventEnvelope>,
    journalFile: seq<byte>,
    journal: seq<EventId>,
    delivered: set<EventId>,
    appended: set<EventEnvelope>,
    marked: set<EventId>,
    removed: set<EventEnvelope>,
    graceOnly: bool)

  datatype Machine = Machine(store: Store, threads: map<nat, Thread>)

  function Initial(): Machine {
    Machine(Store([], [], [], [], {}, {}, {}, {}, true), map[])
  }

  predicate Free(m: Machine, lock: Lock) {
    forall t | t in m.threads :: lock !in m.threads[t].Holds()
  }

  // ------------------------------------------------------------------ steps

  /** What a thread does between lock acquisitions. `list` is the order a set of ids is written in. */
  function Work(c: Codec<EventEnvelope>, s: Store, thread: Thread, list: seq<EventId>): (Store, Thread) {
    match thread
    case AppendWrite(e) => (s.(logFile := s.logFile + Line(c, e)), AppendLockRecords(e))
    case AppendPush(e) => (s.(log := s.log + [e], appended := s.appended + {e}), AppendUnlock)
    case PendingRead => (s, PendingFilter)
    case MarkCheck(id) => (s, if id in s.delivered then Idle else MarkLockFile(id))
    case MarkWrite(id) => (s.(journalFile := s.journalFile + Line(IdCodec, id)), MarkLockRecords(id))
    case MarkPush(id) => (s.(journal := s.journal + [id]), MarkUnlock(id))
    case MarkUnlock(id) => (s, MarkLockSet(id))
    case MarkInsert(id) => (s.(delivered := s.delivered + {id}), Idle)
    case SweepSnapshot(policy, now) => (s, SweepLockFile(policy, now, s.delivered))
    case SweepCompact(policy, now, snapshot) =>
      var kept := Retained(s.log, snapshot, policy, now, SerializedLength(c));
      if |kept| == |s.log| then (s, Idle)
      else (s.(logFile := EncodeAll(c, kept)), SweepSwap(policy, now, snapshot, kept))
    case SweepSwap(policy, now, snapshot, kept) =>
      (s.(log := kept,
          removed := s.removed + (set e | e in s.log && e !in kept && e.id !in snapshot),
          graceOnly := s.graceOnly && policy.GraceOnly()),
       TrimLockFile(list))
    case TrimCompact(ids) => (s.(journalFile := EncodeAll(IdCodec, ids)), TrimSwap(ids))
    case TrimSwap(ids) => (s.(journal := ids), ResetLock(Elements(ids)))
    case ResetSet(ids) => (s.(delivered := ids), Idle)
    case PruneCompact(cut) =>
      var kept := cut.Keep(s.log, EventTime());
      if |kept| == |s.log| then (s, Idle) else (s.(logFile := EncodeAll(c, kept)), PruneSwap(kept))
    case PruneSwap(kept) =>
      (s.(log := kept, removed := s.removed + (set e | e in s.log && e !in kept), graceOnly := false), Idle)
    case _ => (s, Idle)
  }

  /** The order a sweep writes its kept ids in: any order of the snapshot's ids that are still retained. */
  predicate ListOk(thread: Thread, list: seq<EventId>) {
    thread.SweepSwap? ==> Elements(list) == thread.snapshot * Ids(thread.kept)
  }

  datatype Step = Begin(t: nat, thread: Thread) | Acquire(t: nat) | Run(t: nat, list: seq<EventId>)

  ghost predicate Enabled(m: Machine, step: Step) {
    match step
    case Begin(t, thread) => (t in m.threads ==> m.threads[t].Idle?) && thread.Begins()
    case Acquire(t) =>
      t in m.threads && m.threads[t].Wants().Some? && Free(m, m.threads[t].Wants().value)
    case Run(t, list) =>
      t in m.threads && !m.threads[t].Idle? && m.threads[t].Wants().None? && ListOk(m.threads[t], list)
  }

  function Apply(c: Codec<EventEnvelope>, m: Machine, step: Step): Machine
    requires step.Begin? || step.t in m.threads
  {
    match step
    case Begin(t, thread) =>
      var store := if thread.MarkLock? then m.store.(marked := m.store.marked + {thread.id}) else m.store;
      Machine(store, m.threads[t := thread])
    case Acquire(t) => m.(threads := m.threads[t := m.threads[t].Granted()])
    case Run(t, list) =>
      var (store, thread) := Work(c, m.store, m.threads[t], list);
      Machine(store, m.threads[t := thread])
  }

  ghost predicate Execution(c: Codec<EventEnvelope>, machines: seq<Machine>, steps: seq<Step>) {
    && |machines| == |steps| + 1
    && machines[0] == Initial()
    && forall i :: 0 <= i < |steps| ==>
         Enabled(machines[i], steps[i]) && machines[i + 1] == Apply(c, machines[i], steps[i])
  }

  // ------------------------------------------------------------------ invariants

  /** No lock has two holders. */
  ghost predicate Exclusive(m: Machine) {
    forall t, u :: t in m.threads && u in m.threads && t != u ==> m.threads[t].Holds() !! m.threads[u].Holds()
  }

  /** What the log file encodes while a thread holds its lock. */
  function LogOnDisk(thread: Thread, log: seq<EventEnvelope>): seq<EventEnvelope> {
    if thread.AppendLockRecords? || thread.AppendPush? then log + [thread.e]
    else if thread.SweepSwap? || thread.PruneSwap? then thread.kept
    else log
  }

  function JournalOnDisk(thread: Thread, journal: seq<EventId>): seq<EventId> {
    if thread.MarkLockRecords? || thread.MarkPush? then journal + [thread.id]
    else if thread.TrimSwap? then thread.list
    else journal
  }

  /** The ids a thread carries. */
  function Carries(thread: Thread): set<EventId> {
    match thread
    case MarkLock(id) => {id}
    case MarkCheck(id) => {id}
    case MarkLockFile(id) => {id}
    case MarkWrite(id) => {id}
    case MarkLockRecords(id) => {id}
    case MarkPush(id) => {id}
    case MarkUnlock(id) => {id}
    case MarkLockSet(id) => {id}
    case MarkInsert(id) => {id}
    case SweepLockFile(_, _, snapshot) => snapshot
    case SweepLockRecords(_, _, snapshot) => snapshot
    case SweepCompact(_, _, snapshot) => snapshot
    case SweepSwap(_, _, snapshot, _) => snapshot
    case TrimLockFile(list) => Elements(list)
    case TrimLockRecords(list) => Elements(list)
    case TrimCompact(list) => Elements(list)
    case TrimSwap(list) => Elements(list)
    case ResetLock(ids) => ids
    case ResetSet(ids) => ids
    case _ => {}
  }

  ghost predicate ThreadOk(c: Codec<EventEnvelope>, s: Store, thread: Thread) {
    && (LogFile in thread.Holds() ==> s.logFile == EncodeAll(c, LogOnDisk(thread, s.log)))
    && (JournalFile in thread.Holds() ==> s.journalFile == EncodeAll(IdCodec, JournalOnDisk(thread, s.journal)))
    && Carries(thread) <= s.marked
    && (thread.SweepSwap? ==>
          thread.kept == Retained(s.log, thread.snapshot, thread.policy, thread.now, SerializedLength(c)))
  }

  ghost predicate StoreOk(s: Store) {
    && s.delivered <= s.marked && Elements(s.journal) <= s.marked
    && EventsOk(s)
  }

  ghost predicate Inv(c: Codec<EventEnvelope>, m: Machine) {
    && Exclusive(m) && StoreOk(m.store)
    && (forall t :: t in m.threads ==> ThreadOk(c, m.store, m.threads[t]))
    && (Free(m, LogFile) ==> m.store.logFile == EncodeAll(c, m.store.log))
    && (Free(m, JournalFile) ==> m.store.journalFile == EncodeAll(IdCodec, m.store.journal))
  }

  /** Only what the held locks protect has changed. */
  ghost predicate Framed(s: Store, after: Store, held: set<Lock>) {
    && (LogFile !in held ==> after.logFile == s.logFile && after.log == s.log)
    && (JournalFile !in held ==> after.journalFile == s.journalFile && after.journal == s.journal)
    && (LogRecords !in held ==> after.log == s.log)
    && (JournalRecords !in held ==> after.journal == s.journal)
    && (DeliveredSet !in held ==> after.delivered == s.delivered)
    && s.marked <= after.marked
  }

  lemma WorkIsFramed(c: Codec<EventEnvelope>, s: Store, thread: Thread, list: seq<EventId>)
    ensures Framed(s, Work(c, s, thread, list).0, thread.Holds())
  {
    hide Retained, EncodeAll, Elements, Line;
  }

  /** Between acquisitions a thread only lets locks go. */
  lemma WorkTakesNoLock(c: Codec<EventEnvelope>, s: Store, thread: Thread, list: seq<EventId>)
    ensures Work(c, s, thread, list).1.Holds() <= thread.Holds()
  {
    hide Retained, EncodeAll, Elements, Line;
  }

  lemma OtherThreadOk(c: Codec<EventEnvelope>, s: Store, after: Store, held: set<Lock>, other: Thread)
    requires ThreadOk(c, s, other) && Framed(s, after, held) && other.Holds() !! held
    ensures ThreadOk(c, after, other)
  {
  }

  /** A thread that does not hold a file's lock has left nothing half done in it. */
  lemma NothingHalfDone(thread: Thread, s: Store)
    ensures LogFile !in thread.Holds() ==> LogOnDisk(thread, s.log) == s.log
    ensures JournalFile !in thread.Holds() ==> JournalOnDisk(thread, s.journal) == s.journal
  {
  }

  lemma WorkKeepsLogOk(c: Codec<EventEnvelope>, s: Store, thread: Thread, list: seq<EventId>)
    requires ThreadOk(c, s, thread) && thread.Wants().None?
    ensures
      var (after, next) := Work(c, s, thread, list);
      LogFile in thread.Holds() ==> after.logFile == EncodeAll(c, LogOnDisk(next, after.log))
  {
    hide Retained, Elements;
    if thread.AppendWrite? {
      EncodeAllAppend(c, s.log, thread.e);
    }
  }

  lemma WorkKeepsJournalOk(c: Codec<EventEnvelope>, s: Store, thread: Thread, list: seq<EventId>)
    requires ThreadOk(c, s, thread) && thread.Wants().None?
    ensures
      var (after, next) := Work(c, s, thread, list);
      JournalFile in thread.Holds() ==> after.journalFile == EncodeAll(IdCodec, JournalOnDisk(next, after.journal))
  {
    hide Retained, Elements;
    if thread.MarkWrite? {
      EncodeAllAppend(IdCodec, s.journal, thread.id);
    }
  }

  /** Only a snapshot and the list made from it are new ids for a thread to carry. */
  lemma WorkCarriesOn(c: Codec<EventEnvelope>, s: Store, thread: Thread, list: seq<EventId>)
    requires !thread.SweepSnapshot? && !thread.SweepSwap?
    ensures
      var (after, next) := Work(c, s, thread, list);
      Carries(next) <= Carries(thread) && after.marked == s.marked
  {
    hide Retained, EncodeAll, Line;
  }

  lemma WorkCarriesMarks(c: Codec<EventEnvelope>, s: Store, thread: Thread, list: seq<EventId>)
    requires s.delivered <= s.marked && Carries(thread) <= s.marked && ListOk(thread, list)
    ensures
      var (after, next) := Work(c, s, thread, list);
      Carries(next) <= after.marked && after.marked == s.marked
  {
    if !thread.SweepSnapshot? && !thread.SweepSwap? {
      WorkCarriesOn(c, s, thread, list);
    }
  }

  lemma WorkKeepsMarks(c: Codec<EventEnvelope>, s: Store, thread: Thread, list: seq<EventId>)
    requires StoreOk(s) && Carries(thread) <= s.marked
    ensures
      var (after, _) := Work(c, s, thread, list);
      after.delivered <= after.marked && Elements(after.journal) <= after.marked
  {
    if thread.MarkPush? {
      assert Elements(s.journal + [thread.id]) == Elements(s.journal) + {thread.id};
    }
  }

  ghost predicate EventsOk(s: Store) {
    && (forall e :: e in s.appended ==> e in s.log || e.id in s.marked || e in s.removed)
    && (s.graceOnly ==> s.removed == {})
  }

  /** Only a push and the two swaps of the log touch the events. */
  lemma SameEvents(c: Codec<EventEnvelope>, s: Store, thread: Thread, list: seq<EventId>)
    requires !thread.AppendPush? && !thread.SweepSwap? && !thread.PruneSwap?
    ensures
      var (after, _) := Work(c, s, thread, list);
      && after.log == s.log && after.appended == s.appended && after.marked == s.marked && after.removed == s.removed
      && after.graceOnly == s.graceOnly
  {
    hide Retained, EncodeAll, Elements, Line;
  }

  /** Under a grace-only policy a sweep takes away no event it did not know delivered. */
  lemma GraceKeepsUndelivered(c: Codec<EventEnvelope>, s: Store, thread: Thread)
    requires thread.SweepSwap? && thread.policy.GraceOnly()
    requires thread.kept == Retained(s.log, thread.snapshot, thread.policy, thread.now, SerializedLength(c))
    ensures (set e | e in s.log && e !in thread.kept && e.id !in thread.snapshot) == {}
  {
    forall e | e in s.log && e.id !in thread.snapshot
      ensures e in thread.kept
    {
      RetentionIsSoundAndMaximal(s.log, thread.snapshot, thread.policy, thread.now, SerializedLength(c), e);
    }
  }

  lemma SweepKeepsEvents(c: Codec<EventEnvelope>, s: Store, thread: Thread, list: seq<EventId>)
    requires EventsOk(s) && thread.SweepSwap? && thread.snapshot <= s.marked
    requires thread.kept == Retained(s.log, thread.snapshot, thread.policy, thread.now, SerializedLength(c))
    ensures EventsOk(Work(c, s, thread, list).0)
  {
    if thread.policy.GraceOnly() { GraceKeepsUndelivered(c, s, thread); }
    hide Retained;
  }

  lemma WorkKeepsEvents(c: Codec<EventEnvelope>, s: Store, thread: Thread, list: seq<EventId>)
    requires EventsOk(s) && ThreadOk(c, s, thread)
    ensures EventsOk(Work(c, s, thread, list).0)
  {
    hide Retained, EncodeAll, Elements;
    if thread.SweepSwap? {
      SweepKeepsEvents(c, s, thread, list);
    } else if !thread.AppendPush? && !thread.PruneSwap? {
      SameEvents(c, s, thread, list);
    }
  }

  lemma WorkComputesKept(c: Codec<EventEnvelope>, s: Store, thread: Thread, list: seq<EventId>)
    requires thread.Wants().None?
    ensures
      var (after, next) := Work(c, s, thread, list);
      next.SweepSwap? ==>
        next.kept == Retained(after.log, next.snapshot, next.policy, next.now, SerializedLength(c))
  {
    hide Retained, EncodeAll, Elements;
  }

  lemma WorkKeepsThreadOk(c: Codec<EventEnvelope>, s: Store, thread: Thread, list: seq<EventId>)
    requires StoreOk(s) && ThreadOk(c, s, thread) && ListOk(thread, list) && thread.Wants().None?
    ensures
      var (after, next) := Work(c, s, thread, list);
      && ThreadOk(c, after, next) && StoreOk(after)
      && (LogFile in thread.Holds() && LogFile !in next.Holds() ==> after.logFile == EncodeAll(c, after.log))
      && (JournalFile in thread.Holds() && JournalFile !in next.Holds() ==>
            after.journalFile == EncodeAll(IdCodec, after.journal))
  {
    hide Work, EncodeAll, Carries, Retained, LogOnDisk, JournalOnDisk, Elements;
    var (after, next) := Work(c, s, thread, list);
    WorkComputesKept(c, s, thread, list);
    WorkIsFramed(c, s, thread, list);
    WorkTakesNoLock(c, s, thread, list);
    WorkKeepsLogOk(c, s, thread, list);
    WorkKeepsJournalOk(c, s, thread, list);
    WorkCarriesMarks(c, s, thread, list);
    WorkKeepsMarks(c, s, thread, list);
    WorkKeepsEvents(c, s, thread, list);
    NothingHalfDone(next, after);
  }

  /** A step of thread `t` that keeps its own part right and leaves alone what others hold keeps the whole. */
  lemma StepKeepsInv(c: Codec<EventEnvelope>, m: Machine, after: Machine, t: nat, held: set<Lock>, next: Thread)
    requires Inv(c, m) && after.threads == m.threads[t := next]
    requires held == if t in m.threads then m.threads[t].Holds() else {}
    requires Framed(m.store, after.store, held)
    requires ThreadOk(c, after.store, next) && StoreOk(after.store)
    requires forall u :: u in m.threads && u != t ==> m.threads[u].Holds() !! next.Holds()
    requires LogFile in held && LogFile !in next.Holds() ==> after.store.logFile == EncodeAll(c, after.store.log)
    requires JournalFile in held && JournalFile !in next.Holds() ==>
      after.store.journalFile == EncodeAll(IdCodec, after.store.journal)
    ensures Inv(c, after)
  {
    hide ThreadOk, StoreOk, EncodeAll;
    forall u | u in after.threads && u != t
      ensures ThreadOk(c, after.store, after.threads[u])
    {
      OtherThreadOk(c, m.store, after.store, held, m.threads[u]);
    }
    FreeBefore(m, after, t, LogFile);
    FreeBefore(m, after, t, JournalFile);
  }

  /** A lock free after a step of `t` was free before, or `t` let it go. */
  lemma FreeBefore(m: Machine, after: Machine, t: nat, lock: Lock)
    requires t in after.threads
    requires forall u :: u in m.threads && u != t ==> u in after.threads && after.threads[u] == m.threads[u]
    ensures Free(after, lock) ==>
      lock !in after.threads[t].Holds() && (Free(m, lock) || (t in m.threads && lock in m.threads[t].Holds()))
  {
  }

  lemma RunKeepsInv(c: Codec<EventEnvelope>, m: Machine, step: Step)
    requires Inv(c, m) && Enabled(m, step) && step.Run?
    ensures Inv(c, Apply(c, m, step))
  {
    var thread := m.threads[step.t];
    var (store, next) := Work(c, m.store, thread, step.list);
    WorkIsFramed(c, m.store, thread, step.list);
    WorkTakesNoLock(c, m.store, thread, step.list);
    WorkKeepsThreadOk(c, m.store, thread, step.list);
    StepKeepsInv(c, m, Machine(store, m.threads[step.t := next]), step.t, thread.Holds(), next);
  }

  lemma BegunIsOk(c: Codec<EventEnvelope>, s: Store, thread: Thread)
    requires thread.Begins() && (thread.MarkLock? ==> thread.id in s.marked)
    ensures thread.Holds() == {} && ThreadOk(c, s, thread)
  {
    hide EncodeAll;
  }

  lemma MoreMarks(s: Store, id: EventId)
    requires StoreOk(s)
    ensures StoreOk(s.(marked := s.marked + {id}))
  {
  }

  lemma BeginKeepsInv(c: Codec<EventEnvelope>, m: Machine, step: Step)
    requires Inv(c, m) && Enabled(m, step) && step.Begin?
    ensures Inv(c, Apply(c, m, step))
  {
    var after := Apply(c, m, step);
    if step.thread.MarkLock? { MoreMarks(m.store, step.thread.id); }
    BegunIsOk(c, after.store, step.thread);
    hide ThreadOk, StoreOk, EncodeAll, Work;
    StepKeepsInv(c, m, after, step.t, {}, step.thread);
  }

  /** Being granted a lock adds that lock and nothing else. */
  lemma GrantAdds(thread: Thread)
    requires thread.Wants().Some?
    ensures thread.Granted().Holds() == thread.Holds() + {thread.Wants().value}
  {
  }

  lemma GrantCarries(thread: Thread, s: Store)
    requires thread.Wants().Some?
    ensures Carries(thread.Granted()) == Carries(thread) && !thread.Granted().SweepSwap?
    ensures LogOnDisk(thread.Granted(), s.log) == LogOnDisk(thread, s.log)
    ensures JournalOnDisk(thread.Granted(), s.journal) == JournalOnDisk(thread, s.journal)
  {
  }

  lemma AcquireKeepsInv(c: Codec<EventEnvelope>, m: Machine, step: Step)
    requires Inv(c, m) && Enabled(m, step) && step.Acquire?
    ensures Inv(c, Apply(c, m, step))
  {
    var thread := m.threads[step.t];
    var lock := thread.Wants().value;
    GrantAdds(thread);
    GrantCarries(thread, m.store);
    assert ThreadOk(c, m.store, thread);
    assert forall u :: u in m.threads ==> lock !in m.threads[u].Holds();
    if lock == LogFile || lock == JournalFile {
      NothingHalfDone(thread, m.store);
    }
    StepKeepsInv(c, m, Apply(c, m, step), step.t, thread.Holds(), thread.Granted());
  }

  lemma {:induction false} InvHolds(c: Codec<EventEnvelope>, machines: seq<Machine>, steps: seq<Step>, i: nat)
    requires Execution(c, machines, steps) && i < |machines|
    ensures Inv(c, machines[i])
  {
    if i > 0 {
      var m, step := machines[i - 1], steps[i - 1];
      InvHolds(c, machines, steps, i - 1);
      if step.Begin? {
        BeginKeepsInv(c, m, step);
      } else if step.Acquire? {
        AcquireKeepsInv(c, m, step);
      } else {
        RunKeepsInv(c, m, step);
      }
    }
  }

  // ------------------------------------------------------------------ theorems

  /** Whenever no thread holds a file's lock, the file's bytes are exactly the encoding of the records in
      memory, in the same order: for any number of threads, in every state of every execution. */
  lemma UnlockedFilesAgreeWithMemory(c: Codec<EventEnvelope>, machines: seq<Machine>, steps: seq<Step>, i: nat)
    requires Execution(c, machines, steps) && i < |machines|
    ensures Free(machines[i], LogFile) ==> machines[i].store.logFile == EncodeAll(c, machines[i].store.log)
    ensures Free(machines[i], JournalFile) ==>
      machines[i].store.journalFile == EncodeAll(IdCodec, machines[i].store.journal)
  {
    InvHolds(c, machines, steps, i);
  }

  /** Sweeps interleaved with appends and marks: journal and cached set hold only ids that were marked, and an
      appended event is still in the log, or its id was marked, or a hard bound or a prune removed it; while
      every sweep is grace-only and nothing is pruned, the last does not happen. */
  lemma SweepsOnlyRemoveMarkedEvents(c: Codec<EventEnvelope>, machines: seq<Machine>, steps: seq<Step>, i: nat,
      e: EventEnvelope, id: EventId)
    requires Execution(c, machines, steps) && i < |machines|
    ensures
      var s := machines[i].store;
      && (id in s.journal || id in s.delivered ==> id in s.marked)
      && (e in s.appended ==> e in s.log || e.id in s.marked || (e in s.removed && !s.graceOnly))
  {
    InvHolds(c, machines, steps, i);
    assert forall x :: x in machines[i].store.journal ==> x in Elements(machines[i].store.journal);
  }

  /** A thread only ever waits for a lock that comes after every lock it holds. */
  lemma LocksAreOrdered(thread: Thread)
    requires thread.Wants().Some?
    ensures forall held :: held in thread.Holds() ==> held.Rank() < thread.Wants().value.Rank()
  {
  }

  /** Thread `t` can take a step now. */
  ghost predicate CanStep(m: Machine, t: nat) {
    exists step: Step :: !step.Begin? && step.t == t && Enabled(m, step)
  }

  lemma UnblockedCanStep(m: Machine, t: nat)
    requires t in m.threads && !m.threads[t].Idle?
    requires m.threads[t].Wants().Some? ==> Free(m, m.threads[t].Wants().value)
    ensures CanStep(m, t)
  {
    var thread := m.threads[t];
    if thread.Wants().Some? {
      assert Enabled(m, Acquire(t));
    } else {
      var list := if thread.SweepSwap? then SomeOrder(thread.snapshot * Ids(thread.kept)) else [];
      assert Enabled(m, Run(t, list));
    }
  }

  ghost function SomeOrder(ids: set<EventId>): (list: seq<EventId>)
    ensures Elements(list) == ids
  {
    if ids == {} then []
    else
      var id :| id in ids;
      var rest := SomeOrder(ids - {id});
      assert Elements([id] + rest) == {id} + Elements(rest);
      [id] + rest
  }

  /** No reachable state is deadlocked: as long as some thread is in an operation, some thread can step. */
  lemma NoDeadlock(m: Machine, t: nat)
    requires t in m.threads && !m.threads[t].Idle?
    ensures exists u :: u in m.threads && !m.threads[u].Idle? && CanStep(m, u)
    decreases if m.threads[t].Wants().Some? then 1 - m.threads[t].Wants().value.Rank() else 0
  {
    var thread := m.threads[t];
    if thread.Wants().Some? && !Free(m, thread.Wants().value) {
      var u :| u in m.threads && thread.Wants().value in m.threads[u].Holds();
      if m.threads[u].Wants().Some? {
        LocksAreOrdered(m.threads[u]);
        NoDeadlock(m, u);
      } else {
        UnblockedCanStep(m, u);
      }
    } else {
      UnblockedCanStep(m, t);
    }
  }
}
