/** Handling an event: match, bind, submit with retries, dead-letter; and the passes built on it. */
module Runtime {
  import opened Base
  import opened Backoff
  import opened Registry

  // ------------------------------------------------------------------ the environment

  /** A submission: the job and its deterministic key. */
  datatype NewJob = NewJob(job: WorklaneJob, uniqueKey: string)

  datatype BrokerJob = BrokerJob(newJob: NewJob, live: bool)

  /** What the broker does with a call: accept it, or report an error before or after the job landed. */
  datatype EnqueueOutcome = Accepts | FailsBefore | FailsAfter

  /** Everything the runtime cannot control: how the n-th enqueue call and the n-th dead-trigger write turn
      out, and which lane names are valid. */
  datatype Environment = Environment(
    outcome: nat -> EnqueueOutcome,
    writeSucceeds: nat -> bool,
    validLane: string -> bool,
    read: PayloadReader)

  /** The broker and the dead-trigger queue: calls made, jobs by id, records, and writes tried. */
  datatype World = World(calls: seq<NewJob>, jobs: seq<BrokerJob>, dead: seq<DeadTriggerRecord>, writes: nat)

  ghost predicate OneLivePerKey(jobs: seq<BrokerJob>) {
    forall i, j :: 0 <= i < j < |jobs| && jobs[i].live && jobs[j].live ==>
      jobs[i].newJob.uniqueKey != jobs[j].newJob.uniqueKey
  }

  /** The id of a live job with the key, or the number of jobs. */
  function LiveJob(jobs: seq<BrokerJob>, key: string): (id: nat)
    ensures id <= |jobs|
    ensures id < |jobs| ==> jobs[id].live && jobs[id].newJob.uniqueKey == key
    ensures id == |jobs| ==> forall i :: 0 <= i < |jobs| && jobs[i].live ==> jobs[i].newJob.uniqueKey != key
  {
    if jobs == [] then 0
    else if jobs[0].live && jobs[0].newJob.uniqueKey == key then 0
    else 1 + LiveJob(jobs[1..], key)
  }

  /** The broker's contract: with the key live it returns that job, else it creates one. */
  function Land(jobs: seq<BrokerJob>, newJob: NewJob): (seq<BrokerJob>, nat) {
    var id := LiveJob(jobs, newJob.uniqueKey);
    (if id < |jobs| then jobs else jobs + [BrokerJob(newJob, true)], id)
  }

  function Call(env: Environment, newJob: NewJob, w: World): (World, Result<nat, string>) {
    var (jobs, id) := Land(w.jobs, newJob);
    var called := w.(calls := w.calls + [newJob]);
    match env.outcome(|w.calls|)
    case Accepts => (called.(jobs := jobs), Ok(id))
    case FailsBefore => (called, Err("broker"))
    case FailsAfter => (called.(jobs := jobs), Err("broker"))
  }

  function Record(env: Environment, record: DeadTriggerRecord, w: World): (World, Result<DeadTriggerRecord, string>) {
    var tried := w.(writes := w.writes + 1);
    if env.writeSucceeds(w.writes) then (tried.(dead := w.dead + [record]), Ok(record))
    else (tried, Err("storage"))
  }

  /** A failure is queued if and only if its write succeeds, at the end; nothing else changes. */
  lemma RecordIff(env: Environment, record: DeadTriggerRecord, w: World)
    ensures
      var (after, result) := Record(env, record, w);
      && (result == Ok(record) || result.Err?)
      && (result.Ok? <==> env.writeSucceeds(w.writes))
      && (result.Ok? <==> multiset(after.dead)[record] == multiset(w.dead)[record] + 1)
      && (result.Err? <==> after.dead == w.dead)
      && w.dead <= after.dead && after.calls == w.calls && after.jobs == w.jobs
  {
    var (after, _) := Record(env, record, w);
    assert |after.dead| != |w.dead| ==> after.dead != w.dead;
  }

  // ------------------------------------------------------------------ one event

  datatype Context = Context(env: Environment, options: RuntimeOptions, registrations: seq<RegisteredTrigger>)
  {
    function Matching(e: EventEnvelope): seq<RegisteredTrigger> {
      Filter(Selects(env.read, e), registrations)
    }

    function Attempts(): nat {
      if options.maxSubmissionAttempts < 1 then 1 else options.maxSubmissionAttempts
    }
  }

  datatype HandleReport = HandleReport(submitted: seq<nat>, failed: seq<DeadTriggerRecord>)

  datatype TriggerOutcome = Submitted(id: nat) | Failed(record: DeadTriggerRecord)

  /** Call until accepted or out of attempts. */
  function Submit(env: Environment, newJob: NewJob, attempts: nat, w: World): (World, Result<nat, string>)
    requires attempts > 0
  {
    var (after, result) := Call(env, newJob, w);
    if result.Ok? || attempts == 1 then (after, result) else Submit(env, newJob, attempts - 1, after)
  }

  function Enqueue(ctx: Context, job: WorklaneJob, key: string, w: World): (World, Result<nat, string>) {
    if !ctx.env.validLane(job.lane) then (w, Err("invalid lane"))
    else Submit(ctx.env, NewJob(job, key), ctx.Attempts(), w)
  }

  /** Bind and submit. */
  function Try(ctx: Context, r: RegisteredTrigger, e: EventEnvelope, w: World): (World, Result<nat, string>) {
    match r.binding.Bind(e)
    case Ok(job) => Enqueue(ctx, job, SubmissionKey(Identity(e), r.name), w)
    case Err(rejected) => (w, Err(rejected))
  }

  function HandleOne(ctx: Context, r: RegisteredTrigger, e: EventEnvelope, w: World)
    : (World, Result<TriggerOutcome, string>)
  {
    var (after, result) := Try(ctx, r, e, w);
    match result
    case Ok(id) => (after, Ok(Submitted(id)))
    case Err(error) =>
      var (recorded, written) := Record(ctx.env, DeadTriggerRecord(e, r.name, error), after);
      match written
      case Ok(record) => (recorded, Ok(Failed(record)))
      case Err(storage) => (recorded, Err(storage))
  }

  function AddOutcome(report: HandleReport, outcome: TriggerOutcome): HandleReport {
    match outcome
    case Submitted(id) => report.(submitted := report.submitted + [id])
    case Failed(record) => report.(failed := report.failed + [record])
  }

  /** Handling the matched triggers in order; a dead-trigger write that fails ends it. */
  function HandleFrom(ctx: Context, matching: seq<RegisteredTrigger>, e: EventEnvelope, report: HandleReport, w: World)
    : (World, Result<HandleReport, string>)
    decreases matching
  {
    if matching == [] then (w, Ok(report))
    else
      var (after, outcome) := HandleOne(ctx, matching[0], e, w);
      match outcome
      case Err(error) => (after, Err(error))
      case Ok(done) => HandleFrom(ctx, matching[1..], e, AddOutcome(report, done), after)
  }

  function Handle(ctx: Context, e: EventEnvelope, w: World): (World, Result<HandleReport, string>) {
    HandleFrom(ctx, ctx.Matching(e), e, HandleReport([], []), w)
  }

  // ------------------------------------------------------------------ what handling guarantees

  /** Some job, live or done, was created under the key. */
  ghost predicate KeyHasJob(jobs: seq<BrokerJob>, key: string) {
    exists i :: 0 <= i < |jobs| && jobs[i].newJob.uniqueKey == key
  }

  /** Some live job is under the key. */
  ghost predicate LiveUnder(jobs: seq<BrokerJob>, key: string) {
    exists i :: 0 <= i < |jobs| && jobs[i].live && jobs[i].newJob.uniqueKey == key
  }

  /** A call made between the two worlds asked for this job, and landed. */
  ghost predicate Landed(env: Environment, before: World, after: World, newJob: NewJob) {
    exists i :: |before.calls| <= i < |after.calls| && after.calls[i] == newJob && env.outcome(i) != FailsBefore
  }

  /** Nothing is taken away, every new job is that of a call that landed, and a call that landed has a live job. */
  ghost predicate Grows(env: Environment, before: World, after: World) {
    && before.jobs <= after.jobs && before.dead <= after.dead && before.calls <= after.calls
    && (forall j :: |before.jobs| <= j < |after.jobs| ==> Landed(env, before, after, after.jobs[j].newJob))
    && (forall newJob :: Landed(env, before, after, newJob) ==> LiveUnder(after.jobs, newJob.uniqueKey))
  }

  lemma KeyKeepsJob(jobs: seq<BrokerJob>, more: seq<BrokerJob>, key: string)
    requires jobs <= more && KeyHasJob(jobs, key)
    ensures KeyHasJob(more, key)
  {
    var i :| 0 <= i < |jobs| && jobs[i].newJob.uniqueKey == key;
    assert more[i] == jobs[i];
  }

  lemma KeyStaysLive(jobs: seq<BrokerJob>, more: seq<BrokerJob>, key: string)
    requires jobs <= more && LiveUnder(jobs, key)
    ensures LiveUnder(more, key)
  {
    var i :| 0 <= i < |jobs| && jobs[i].live && jobs[i].newJob.uniqueKey == key;
    assert more[i] == jobs[i];
  }

  lemma LandedWider(env: Environment, a: World, b: World, c: World, newJob: NewJob)
    requires a.calls <= b.calls <= c.calls
    ensures Landed(env, a, c, newJob) <==> Landed(env, a, b, newJob) || Landed(env, b, c, newJob)
  {
    if Landed(env, a, b, newJob) {
      var i :| |a.calls| <= i < |b.calls| && b.calls[i] == newJob && env.outcome(i) != FailsBefore;
      assert c.calls[i] == newJob;
    }
    if Landed(env, a, c, newJob) {
      var i :| |a.calls| <= i < |c.calls| && c.calls[i] == newJob && env.outcome(i) != FailsBefore;
      if i < |b.calls| { assert b.calls[i] == newJob; }
    }
  }

  lemma GrowsOn(env: Environment, a: World, b: World, c: World)
    requires Grows(env, a, b) && Grows(env, b, c)
    ensures Grows(env, a, c)
  {
    hide Landed, LiveUnder;
    forall j | |a.jobs| <= j < |c.jobs|
      ensures Landed(env, a, c, c.jobs[j].newJob)
    {
      LandedWider(env, a, b, c, c.jobs[j].newJob);
      if j < |b.jobs| { assert c.jobs[j] == b.jobs[j]; }
    }
    forall newJob | Landed(env, a, c, newJob)
      ensures LiveUnder(c.jobs, newJob.uniqueKey)
    {
      LandedWider(env, a, b, c, newJob);
      if Landed(env, a, b, newJob) { KeyStaysLive(b.jobs, c.jobs, newJob.uniqueKey); }
    }
  }

  lemma GrowsNot(env: Environment, w: World)
    ensures Grows(env, w, w)
  {
  }

  ghost predicate IsLiveJob(jobs: seq<BrokerJob>, id: nat, key: string) {
    id < |jobs| && jobs[id].live && jobs[id].newJob.uniqueKey == key
  }

  lemma CallFacts(env: Environment, newJob: NewJob, w: World)
    ensures
      var (after, result) := Call(env, newJob, w);
      && Grows(env, w, after) && after.dead == w.dead && after.calls == w.calls + [newJob]
      && (result.Ok? <==> env.outcome(|w.calls|) == Accepts)
      && (result.Ok? ==> IsLiveJob(after.jobs, result.value, newJob.uniqueKey))
  {
    var (after, _) := Call(env, newJob, w);
    var id := LiveJob(w.jobs, newJob.uniqueKey);
    assert after.calls[|w.calls|] == newJob;
    forall other | Landed(env, w, after, other)
      ensures LiveUnder(after.jobs, other.uniqueKey)
    {
      assert other == newJob && IsLiveJob(after.jobs, id, newJob.uniqueKey);
    }
    forall j | |w.jobs| <= j < |after.jobs|
      ensures Landed(env, w, after, after.jobs[j].newJob)
    {
      assert after.jobs[j].newJob == newJob;
    }
  }

  lemma CallsGrow(env: Environment, before: World, after: World)
    requires Grows(env, before, after)
    ensures before.calls <= after.calls && before.jobs <= after.jobs && before.dead <= after.dead
  {
  }

  /** A submission makes at least one and at most `attempts` calls, every one with the same job and key; every
      call but the last failed, and the result is the last call's. On success it is a live job with the key. */
  lemma {:induction false} SubmitCalls(env: Environment, newJob: NewJob, attempts: nat, w: World)
    requires attempts > 0
    ensures
      var (after, result) := Submit(env, newJob, attempts, w);
      && Grows(env, w, after) && after.dead == w.dead
      && 1 <= |after.calls| - |w.calls| <= attempts
      && (forall i :: |w.calls| <= i < |after.calls| ==> after.calls[i] == newJob)
      && (forall i :: |w.calls| <= i < |after.calls| - 1 ==> env.outcome(i) != Accepts)
      && (result.Ok? <==> env.outcome(|after.calls| - 1) == Accepts)
      && (result.Err? ==> |after.calls| == |w.calls| + attempts)
      && (result.Ok? ==> IsLiveJob(after.jobs, result.value, newJob.uniqueKey))
  {
    CallFacts(env, newJob, w);
    hide Call, Grows;
    var (called, result) := Call(env, newJob, w);
    if result.Err? && attempts > 1 {
      SubmitCalls(env, newJob, attempts - 1, called);
      var (after, _) := Submit(env, newJob, attempts - 1, called);
      GrowsOn(env, w, called, after);
      CallsGrow(env, called, after);
      assert after.calls[|w.calls|] == called.calls[|w.calls|];
    }
  }

  /** However often it is asked, the broker never has two live jobs with one key. */
  lemma {:induction false} SubmitKeepsOneLive(env: Environment, newJob: NewJob, attempts: nat, w: World)
    requires attempts > 0 && OneLivePerKey(w.jobs)
    ensures OneLivePerKey(Submit(env, newJob, attempts, w).0.jobs)
  {
    var (called, result) := Call(env, newJob, w);
    if result.Err? && attempts > 1 {
      SubmitKeepsOneLive(env, newJob, attempts - 1, called);
    }
  }

  ghost predicate IsQueued(dead: seq<DeadTriggerRecord>, e: EventEnvelope, name: string) {
    exists d :: d in dead && d.event == e && d.triggerName == name
  }

  /** Some job exists under the key of the event and the trigger, or the trigger's failure is in the queue. */
  ghost predicate Answered(w: World, e: EventEnvelope, name: string) {
    KeyHasJob(w.jobs, SubmissionKey(Identity(e), name)) || IsQueued(w.dead, e, name)
  }

  lemma AnsweredGrows(env: Environment, before: World, after: World, e: EventEnvelope, name: string)
    requires Grows(env, before, after) && Answered(before, e, name)
    ensures Answered(after, e, name)
  {
    if KeyHasJob(before.jobs, SubmissionKey(Identity(e), name)) {
      KeyKeepsJob(before.jobs, after.jobs, SubmissionKey(Identity(e), name));
    }
  }

  // ------------------------------------------------------------------ whose job it is

  /** The job is of the binding: its lane, its kind, its attempts. */
  ghost predicate OfBinding(job: WorklaneJob, binding: WorklaneJobBinding) {
    job.lane == binding.lane && job.kind == binding.kind && job.maxAttempts == binding.maxAttempts
  }

  /** Every job under a key of a registration is of that registration's binding. */
  ghost predicate KeysOwned(registrations: seq<RegisteredTrigger>, jobs: seq<BrokerJob>) {
    forall j, r, identity ::
      0 <= j < |jobs| && r in registrations && jobs[j].newJob.uniqueKey == SubmissionKey(identity, r.name) ==>
        OfBinding(jobs[j].newJob.job, r.binding)
  }

  /** A live job of the trigger's own is under the key of the event and the trigger. */
  ghost predicate HasOwnJob(jobs: seq<BrokerJob>, e: EventEnvelope, r: RegisteredTrigger) {
    exists j: nat :: IsLiveJob(jobs, j, SubmissionKey(Identity(e), r.name)) && OfBinding(jobs[j].newJob.job, r.binding)
  }

  /** Names are distinct and unambiguous, and jobs are under the keys of their own triggers. */
  ghost predicate Owned(ctx: Context, w: World) {
    KeysTellApart(TriggerNames(ctx.registrations)) && KeysOwned(ctx.registrations, w.jobs)
  }

  // ------------------------------------------------------------------ what became of a matched trigger

  /** Between the two worlds the broker accepted a call for the event and the trigger. */
  ghost predicate AcceptedFor(ctx: Context, before: World, after: World, e: EventEnvelope, r: RegisteredTrigger) {
    exists i :: |before.calls| <= i < |after.calls| && ctx.env.outcome(i).Accepts?
                && IsCallFor(ctx, after.calls[i], e, r)
  }

  /** Between the two worlds a failure of the event under the name was appended to the queue. */
  ghost predicate QueuedSince(before: World, after: World, e: EventEnvelope, name: string) {
    exists k :: |before.dead| <= k < |after.dead| && after.dead[k].event == e && after.dead[k].triggerName == name
  }

  ghost predicate Settled(ctx: Context, before: World, after: World, e: EventEnvelope, r: RegisteredTrigger) {
    AcceptedFor(ctx, before, after, e, r) || QueuedSince(before, after, e, r.name)
  }

  /** Every matched trigger of the event was submitted or recorded between the two worlds. */
  ghost predicate AllSettled(ctx: Context, before: World, after: World, e: EventEnvelope) {
    forall r :: r in ctx.Matching(e) ==> Settled(ctx, before, after, e, r)
  }

  /** Every matched trigger of the event of which a call was accepted has a live job of its own. */
  ghost predicate AllOwn(ctx: Context, before: World, after: World, e: EventEnvelope) {
    forall r :: r in ctx.Matching(e) && AcceptedFor(ctx, before, after, e, r) ==> HasOwnJob(after.jobs, e, r)
  }

  lemma SettledWider(ctx: Context, a: World, b: World, c: World, e: EventEnvelope, r: RegisteredTrigger)
    requires a.calls <= b.calls <= c.calls && a.dead <= b.dead <= c.dead
    requires Settled(ctx, a, b, e, r) || Settled(ctx, b, c, e, r)
    ensures Settled(ctx, a, c, e, r)
  {
    hide IsCallFor;
    if AcceptedFor(ctx, a, b, e, r) {
      var i :| |a.calls| <= i < |b.calls| && ctx.env.outcome(i).Accepts? && IsCallFor(ctx, b.calls[i], e, r);
      assert c.calls[i] == b.calls[i];
    } else if QueuedSince(a, b, e, r.name) {
      var k :| |a.dead| <= k < |b.dead| && b.dead[k].event == e && b.dead[k].triggerName == r.name;
      assert c.dead[k] == b.dead[k];
    }
  }

  lemma AllSettledWider(ctx: Context, a: World, b: World, c: World, e: EventEnvelope)
    requires Grows(ctx.env, a, b) && Grows(ctx.env, b, c)
    requires AllSettled(ctx, a, b, e) || AllSettled(ctx, b, c, e)
    ensures AllSettled(ctx, a, c, e)
  {
    hide Settled;
    forall r | r in ctx.Matching(e)
      ensures Settled(ctx, a, c, e, r)
    {
      SettledWider(ctx, a, b, c, e, r);
    }
  }

  /** What was settled is answered. */
  lemma SettledIsAnswered(ctx: Context, before: World, after: World, e: EventEnvelope, r: RegisteredTrigger)
    requires Grows(ctx.env, before, after) && Settled(ctx, before, after, e, r)
    ensures Answered(after, e, r.name)
  {
    if AcceptedFor(ctx, before, after, e, r) {
      AcceptedIsLive(ctx, before, after, e, r);
    } else {
      var k :| |before.dead| <= k < |after.dead| && after.dead[k].event == e && after.dead[k].triggerName == r.name;
      assert after.dead[k] in after.dead;
    }
  }

  lemma AcceptedIsLive(ctx: Context, before: World, after: World, e: EventEnvelope, r: RegisteredTrigger)
    requires Grows(ctx.env, before, after) && AcceptedFor(ctx, before, after, e, r)
    ensures LiveUnder(after.jobs, SubmissionKey(Identity(e), r.name))
  {
    var i :| |before.calls| <= i < |after.calls| && ctx.env.outcome(i).Accepts?
             && IsCallFor(ctx, after.calls[i], e, r);
    assert Landed(ctx.env, before, after, after.calls[i]);
  }

  /** With every key at its owner, an accepted call has a live job of its own trigger. */
  lemma AcceptedAreOwn(ctx: Context, before: World, after: World, e: EventEnvelope)
    requires Grows(ctx.env, before, after) && Owned(ctx, after)
    ensures AllOwn(ctx, before, after, e)
  {
    forall r | r in ctx.Matching(e) && AcceptedFor(ctx, before, after, e, r)
      ensures HasOwnJob(after.jobs, e, r)
    {
      AcceptedIsLive(ctx, before, after, e, r);
      MatchingIsRegistered(ctx, e, r);
      var key := SubmissionKey(Identity(e), r.name);
      var j :| 0 <= j < |after.jobs| && after.jobs[j].live && after.jobs[j].newJob.uniqueKey == key;
      assert IsLiveJob(after.jobs, j, key);
    }
  }

  lemma MatchingIsRegistered(ctx: Context, e: EventEnvelope, r: RegisteredTrigger)
    requires r in ctx.Matching(e)
    ensures r in ctx.registrations && r.enabled && r.trigger.Matches(ctx.env.read, e)
  {
    FilterMember(Selects(ctx.env.read, e), ctx.registrations, r);
  }

  /** Calls for registered triggers keep every key with its owner. */
  lemma CallsKeepOwners(ctx: Context, before: World, after: World, e: EventEnvelope)
    requires Owned(ctx, before) && Grows(ctx.env, before, after)
    requires CallsAreFor(ctx, after.calls, |before.calls|, e, ctx.Matching(e))
    ensures Owned(ctx, after)
  {
    var registrations := ctx.registrations;
    forall j, r, identity | 0 <= j < |after.jobs| && r in registrations
                            && after.jobs[j].newJob.uniqueKey == SubmissionKey(identity, r.name)
      ensures OfBinding(after.jobs[j].newJob.job, r.binding)
    {
      if j < |before.jobs| {
        assert after.jobs[j] == before.jobs[j];
      } else {
        var newJob := after.jobs[j].newJob;
        assert Landed(ctx.env, before, after, newJob);
        var i :| |before.calls| <= i < |after.calls| && after.calls[i] == newJob;
        assert IsCallForSome(ctx, after.calls[i], e, ctx.Matching(e));
        var own :| own in ctx.Matching(e) && IsCallFor(ctx, newJob, e, own);
        MatchingIsRegistered(ctx, e, own);
        OneOwner(registrations, own, Identity(e), r, identity);
      }
    }
  }

  lemma OneOwner(registrations: seq<RegisteredTrigger>, r: RegisteredTrigger, i: string, s: RegisteredTrigger,
      j: string)
    requires KeysTellApart(TriggerNames(registrations)) && r in registrations && s in registrations
    requires SubmissionKey(i, r.name) == SubmissionKey(j, s.name)
    ensures i == j && r == s
  {
    var m :| 0 <= m < |registrations| && registrations[m] == r;
    var n :| 0 <= n < |registrations| && registrations[n] == s;
    var names := TriggerNames(registrations);
    assert names[m] == r.name && names[n] == s.name;
  }

  // ------------------------------------------------------------------ one matched trigger after the other

  lemma HandleOneFacts(ctx: Context, r: RegisteredTrigger, e: EventEnvelope, w: World)
    ensures
      var (after, outcome) := HandleOne(ctx, r, e, w);
      && Grows(ctx.env, w, after)
      && (OneLivePerKey(w.jobs) ==> OneLivePerKey(after.jobs))
      && (forall i :: |w.calls| <= i < |after.calls| ==> IsCallFor(ctx, after.calls[i], e, r))
      && (outcome.Err? ==> after.dead == w.dead)
      && (outcome.Ok? ==> Settled(ctx, w, after, e, r))
      && (outcome.Ok? ==> after.dead == w.dead + AddOutcome(HandleReport([], []), outcome.value).failed)
      && (outcome.Ok? && outcome.value.Failed? ==>
            outcome.value.record.event == e && outcome.value.record.triggerName == r.name)
  {
    TryFacts(ctx, r, e, w);
    hide Try, KeyHasJob, OneLivePerKey, IsCallFor;
    var (tried, result) := Try(ctx, r, e, w);
    if result.Err? {
      var (after, written) := Record(ctx.env, DeadTriggerRecord(e, r.name, result.error), tried);
      SameCallsGrow(ctx.env, w, tried, after);
      if written.Ok? {
        assert after.dead[|w.dead|] == DeadTriggerRecord(e, r.name, result.error);
      }
    }
  }

  lemma SameCallsGrow(env: Environment, before: World, middle: World, after: World)
    requires Grows(env, before, middle) && after.calls == middle.calls && after.jobs == middle.jobs
    requires middle.dead <= after.dead
    ensures Grows(env, before, after)
  {
    assert forall newJob :: Landed(env, before, after, newJob) == Landed(env, before, middle, newJob);
  }

  lemma TryFacts(ctx: Context, r: RegisteredTrigger, e: EventEnvelope, w: World)
    ensures
      var (after, result) := Try(ctx, r, e, w);
      && Grows(ctx.env, w, after) && after.dead == w.dead
      && (OneLivePerKey(w.jobs) ==> OneLivePerKey(after.jobs))
      && (forall i :: |w.calls| <= i < |after.calls| ==> IsCallFor(ctx, after.calls[i], e, r))
      && (result.Ok? ==> AcceptedFor(ctx, w, after, e, r))
  {
    if r.binding.Bind(e).Ok? {
      var newJob := NewJob(r.binding.Bind(e).value, SubmissionKey(Identity(e), r.name));
      SubmitCalls(ctx.env, newJob, ctx.Attempts(), w);
      if OneLivePerKey(w.jobs) { SubmitKeepsOneLive(ctx.env, newJob, ctx.Attempts(), w); }
    }
    hide Submit, OneLivePerKey;
    GrowsNot(ctx.env, w);
  }

  /** The call submits what the trigger binds the event to, under the key of the event and the trigger. */
  ghost predicate IsCallFor(ctx: Context, call: NewJob, e: EventEnvelope, r: RegisteredTrigger) {
    && r.binding.Bind(e) == Ok(call.job) && ctx.env.validLane(call.job.lane)
    && call.uniqueKey == SubmissionKey(Identity(e), r.name)
  }

  ghost predicate IsCallForSome(ctx: Context, call: NewJob, e: EventEnvelope, triggers: seq<RegisteredTrigger>) {
    exists r :: r in triggers && IsCallFor(ctx, call, e, r)
  }

  /** Every later call to the broker is for the event and one of the triggers. */
  ghost predicate CallsAreFor(ctx: Context, calls: seq<NewJob>, from: nat, e: EventEnvelope,
      triggers: seq<RegisteredTrigger>)
  {
    forall i :: from <= i < |calls| ==> IsCallForSome(ctx, calls[i], e, triggers)
  }

  /** The calls of the first trigger, then those of the others. */
  lemma CallsJoin(ctx: Context, middle: seq<NewJob>, after: seq<NewJob>, from: nat, e: EventEnvelope,
      triggers: seq<RegisteredTrigger>)
    requires triggers != [] && middle <= after
    requires forall i :: from <= i < |middle| ==> IsCallFor(ctx, middle[i], e, triggers[0])
    requires CallsAreFor(ctx, after, |middle|, e, triggers[1..])
    ensures CallsAreFor(ctx, after, from, e, triggers)
  {
    forall i | from <= i < |after|
      ensures IsCallForSome(ctx, after[i], e, triggers)
    {
      if i < |middle| {
        assert after[i] == middle[i] && triggers[0] in triggers;
      } else {
        assert IsCallForSome(ctx, after[i], e, triggers[1..]);
        var r :| r in triggers[1..] && IsCallFor(ctx, after[i], e, r);
        assert r in triggers;
      }
    }
  }

  lemma {:induction false} HandleFromGrows(ctx: Context, matching: seq<RegisteredTrigger>, e: EventEnvelope,
      report: HandleReport, w: World)
    ensures
      var after := HandleFrom(ctx, matching, e, report, w).0;
      && Grows(ctx.env, w, after)
      && (OneLivePerKey(w.jobs) ==> OneLivePerKey(after.jobs))
      && CallsAreFor(ctx, after.calls, |w.calls|, e, matching)
  {
    hide HandleOne, IsCallFor, Grows, OneLivePerKey;
    if matching == [] {
      GrowsNot(ctx.env, w);
    } else {
      HandleOneFacts(ctx, matching[0], e, w);
      var (middle, outcome) := HandleOne(ctx, matching[0], e, w);
      var after := HandleFrom(ctx, matching, e, report, w).0;
      if outcome.Ok? {
        HandleFromGrows(ctx, matching[1..], e, AddOutcome(report, outcome.value), middle);
        GrowsOn(ctx.env, w, middle, after);
        CallsGrow(ctx.env, middle, after);
      }
      CallsGrow(ctx.env, w, middle);
      CallsJoin(ctx, middle.calls, after.calls, |w.calls|, e, matching);
    }
  }

  /** A matched trigger of that name is routed, submitted or recorded, before a write to the queue fails. */
  ghost predicate IsRouted(ctx: Context, matching: seq<RegisteredTrigger>, e: EventEnvelope, w: World, name: string) {
    && matching != []
    && var (after, outcome) := HandleOne(ctx, matching[0], e, w);
       outcome.Ok? && (matching[0].name == name || IsRouted(ctx, matching[1..], e, after, name))
  }

  lemma {:induction false} HandleFromAccounts(ctx: Context, matching: seq<RegisteredTrigger>, e: EventEnvelope,
      report: HandleReport, w: World, base: seq<DeadTriggerRecord>)
    requires w.dead == base + report.failed
    ensures
      var (after, result) := HandleFrom(ctx, matching, e, report, w);
      && (result.Ok? ==> forall r :: r in matching ==> IsRouted(ctx, matching, e, w, r.name))
      && (result.Ok? ==>
            && |result.value.submitted| + |result.value.failed| == |report.submitted| + |report.failed| + |matching|
            && after.dead == base + result.value.failed)
  {
    if matching != [] {
      HandleOneFacts(ctx, matching[0], e, w);
      hide HandleOne, Grows, IsCallFor, OneLivePerKey, Settled;
      var (middle, outcome) := HandleOne(ctx, matching[0], e, w);
      if outcome.Ok? {
        var added := AddOutcome(report, outcome.value);
        assert middle.dead == base + added.failed;
        HandleFromAccounts(ctx, matching[1..], e, added, middle, base);
      }
    }
  }

  /** A handling that succeeds settles every trigger it is given. */
  lemma {:induction false} HandleFromSettles(ctx: Context, matching: seq<RegisteredTrigger>, e: EventEnvelope,
      report: HandleReport, w: World, r: RegisteredTrigger)
    requires HandleFrom(ctx, matching, e, report, w).1.Ok? && r in matching
    ensures Settled(ctx, w, HandleFrom(ctx, matching, e, report, w).0, e, r)
  {
    HandleOneFacts(ctx, matching[0], e, w);
    hide HandleOne, Grows, IsCallFor, OneLivePerKey, Settled;
    var (middle, outcome) := HandleOne(ctx, matching[0], e, w);
    var added := AddOutcome(report, outcome.value);
    var after := HandleFrom(ctx, matching, e, report, w).0;
    HandleFromGrows(ctx, matching[1..], e, added, middle);
    CallsGrow(ctx.env, w, middle);
    CallsGrow(ctx.env, middle, after);
    if r != matching[0] {
      HandleFromSettles(ctx, matching[1..], e, added, middle, r);
    }
    SettledWider(ctx, w, middle, after, e, r);
  }

  /** Every record is a failure of the event and of one of its routed triggers. */
  ghost predicate OfRouted(ctx: Context, matching: seq<RegisteredTrigger>, e: EventEnvelope, w: World,
      records: seq<DeadTriggerRecord>)
  {
    forall d :: d in records ==> d.event == e && IsRouted(ctx, matching, e, w, d.triggerName)
  }

  lemma OfRoutedJoin(ctx: Context, matching: seq<RegisteredTrigger>, e: EventEnvelope, w: World,
      first: seq<DeadTriggerRecord>, rest: seq<DeadTriggerRecord>)
    requires matching != [] && HandleOne(ctx, matching[0], e, w).1.Ok?
    requires forall d :: d in first ==> d.event == e && d.triggerName == matching[0].name
    requires OfRouted(ctx, matching[1..], e, HandleOne(ctx, matching[0], e, w).0, rest)
    ensures OfRouted(ctx, matching, e, w, first + rest)
  {
    hide HandleOne;
  }

  /** What is written to the queue are failures of the event's routed triggers. */
  lemma {:induction false} HandleFromWrites(ctx: Context, matching: seq<RegisteredTrigger>, e: EventEnvelope,
      report: HandleReport, w: World)
      returns (written: seq<DeadTriggerRecord>)
    ensures HandleFrom(ctx, matching, e, report, w).0.dead == w.dead + written
    ensures OfRouted(ctx, matching, e, w, written)
  {
    hide OfRouted, HandleOne, AddOutcome;
    written := [];
    NothingIsOfRouted(ctx, matching, e, w);
    if matching != [] {
      var (middle, outcome) := HandleOne(ctx, matching[0], e, w);
      var first := HandleOneWrites(ctx, matching[0], e, w);
      if outcome.Ok? {
        var rest := HandleFromWrites(ctx, matching[1..], e, AddOutcome(report, outcome.value), middle);
        OfRoutedJoin(ctx, matching, e, w, first, rest);
        written := first + rest;
        assert w.dead + (first + rest) == (w.dead + first) + rest;
      }
    }
  }

  lemma NothingIsOfRouted(ctx: Context, matching: seq<RegisteredTrigger>, e: EventEnvelope, w: World)
    ensures OfRouted(ctx, matching, e, w, [])
  {
  }

  lemma HandleOneWrites(ctx: Context, r: RegisteredTrigger, e: EventEnvelope, w: World)
      returns (written: seq<DeadTriggerRecord>)
    ensures HandleOne(ctx, r, e, w).0.dead == w.dead + written
    ensures HandleOne(ctx, r, e, w).1.Err? ==> written == []
    ensures forall d :: d in written ==> d.event == e && d.triggerName == r.name
  {
    HandleOneFacts(ctx, r, e, w);
    var (_, outcome) := HandleOne(ctx, r, e, w);
    written := if outcome.Ok? then AddOutcome(HandleReport([], []), outcome.value).failed else [];
  }

  lemma {:induction false} RoutedIsAnswered(ctx: Context, matching: seq<RegisteredTrigger>, e: EventEnvelope,
      report: HandleReport, w: World, name: string)
    requires IsRouted(ctx, matching, e, w, name)
    ensures Answered(HandleFrom(ctx, matching, e, report, w).0, e, name)
  {
    HandleOneFacts(ctx, matching[0], e, w);
    hide HandleOne, Grows, IsCallFor, OneLivePerKey, Answered, Settled;
    var (middle, outcome) := HandleOne(ctx, matching[0], e, w);
    var added := AddOutcome(report, outcome.value);
    HandleFromGrows(ctx, matching[1..], e, added, middle);
    if matching[0].name == name {
      SettledIsAnswered(ctx, w, middle, e, matching[0]);
      AnsweredGrows(ctx.env, middle, HandleFrom(ctx, matching[1..], e, added, middle).0, e, name);
    } else {
      RoutedIsAnswered(ctx, matching[1..], e, added, middle, name);
    }
  }

  /** An event whose handling succeeds has every matched trigger accounted for exactly once, submitted or failed, and
      the failures are appended to the queue: each matched trigger had a call of this very handling accepted, or a
      record of this handling in the queue. Whatever happens, every call is for the event and one of its triggers,
      nothing is taken away, and no key gains a second live job. When names are distinct and unambiguous, jobs stay
      with their own triggers, and a trigger with an accepted call has a live job of its own. */
  lemma HandleGuarantees(ctx: Context, e: EventEnvelope, w: World)
    ensures
      var (after, result) := Handle(ctx, e, w);
      && Grows(ctx.env, w, after)
      && (OneLivePerKey(w.jobs) ==> OneLivePerKey(after.jobs))
      && CallsAreFor(ctx, after.calls, |w.calls|, e, ctx.Matching(e))
      && (result.Ok? ==>
            && |result.value.submitted| + |result.value.failed| == |ctx.Matching(e)|
            && after.dead == w.dead + result.value.failed
            && (forall d :: d in result.value.failed ==> d.event == e)
            && AllSettled(ctx, w, after, e))
      && (Owned(ctx, w) ==> Owned(ctx, after) && AllOwn(ctx, w, after, e))
  {
    var matching := ctx.Matching(e);
    var (after, result) := Handle(ctx, e, w);
    assert w.dead + [] == w.dead;
    HandleFromGrows(ctx, matching, e, HandleReport([], []), w);
    HandleFromAccounts(ctx, matching, e, HandleReport([], []), w, w.dead);
    hide Grows, OneLivePerKey, HandleFrom, CallsAreFor, Settled, Owned, AllOwn;
    if result.Ok? {
      var written := HandleFromWrites(ctx, matching, e, HandleReport([], []), w);
      assert (w.dead + written)[|w.dead|..] == written;
      assert (w.dead + result.value.failed)[|w.dead|..] == result.value.failed;
      forall r | r in matching
        ensures Settled(ctx, w, after, e, r)
      {
        HandleFromSettles(ctx, matching, e, HandleReport([], []), w, r);
      }
    }
    if Owned(ctx, w) {
      CallsKeepOwners(ctx, w, after, e);
      AcceptedAreOwn(ctx, w, after, e);
    }
  }

  // ------------------------------------------------------------------ several events

  /** Handle the events in order, stopping at the first that fails; the reports of those handled. */
  function HandleEach(ctx: Context, events: seq<EventEnvelope>, w: World)
    : (World, seq<HandleReport>)
    decreases events
  {
    if events == [] then (w, [])
    else
      var (after, result) := Handle(ctx, events[0], w);
      match result
      case Err(_) => (after, [])
      case Ok(report) =>
        var (last, reports) := HandleEach(ctx, events[1..], after);
        (last, [report] + reports)
  }

  function AllFailed(reports: seq<HandleReport>): seq<DeadTriggerRecord> {
    if reports == [] then [] else reports[0].failed + AllFailed(reports[1..])
  }

  /** The same for events handled one after the other. The queue gains the failures of the handled events in order,
      and then only failures of the event at which the handling stopped. */
  lemma {:induction false} HandleEachGuarantees(ctx: Context, events: seq<EventEnvelope>, w: World)
    ensures
      var (after, reports) := HandleEach(ctx, events, w);
      && |reports| <= |events| && Grows(ctx.env, w, after)
      && (OneLivePerKey(w.jobs) ==> OneLivePerKey(after.jobs))
      && w.dead + AllFailed(reports) <= after.dead
      && (|reports| == |events| ==> after.dead == w.dead + AllFailed(reports))
      && (forall d :: d in after.dead[|w.dead + AllFailed(reports)|..] ==>
            |reports| < |events| && d.event == events[|reports|])
      && (forall i :: 0 <= i < |reports| ==> AllSettled(ctx, w, after, events[i]))
      && (Owned(ctx, w) ==> Owned(ctx, after) && forall e :: AllOwn(ctx, w, after, e))
  {
    hide Handle, OneLivePerKey, AllSettled, AllOwn, Owned, Grows;
    if events == [] {
      GrowsNot(ctx.env, w);
    } else {
      HandleGuarantees(ctx, events[0], w);
      var (middle, result) := Handle(ctx, events[0], w);
      CallsGrow(ctx.env, w, middle);
      if result.Err? {
        assert w.dead + AllFailed([]) == w.dead;
        FailuresAreOwn(ctx, events[0], w);
      } else {
        HandleEachGuarantees(ctx, events[1..], middle);
        var (after, reports) := HandleEach(ctx, events[1..], middle);
        GrowsOn(ctx.env, w, middle, after);
        assert ([result.value] + reports)[1..] == reports;
        assert w.dead + (result.value.failed + AllFailed(reports)) == middle.dead + AllFailed(reports);
        AllSettledWider(ctx, w, middle, after, events[0]);
        forall i | 0 <= i < |reports|
          ensures AllSettled(ctx, w, after, events[1..][i])
        {
          AllSettledWider(ctx, w, middle, after, events[1..][i]);
        }
      }
    }
    var (last, _) := HandleEach(ctx, events, w);
    if Owned(ctx, w) {
      forall e
        ensures AllOwn(ctx, w, last, e)
      {
        AcceptedAreOwn(ctx, w, last, e);
      }
    }
  }

  lemma FailuresAreOwn(ctx: Context, e: EventEnvelope, w: World)
    ensures
      var after := Handle(ctx, e, w).0;
      |w.dead| <= |after.dead| && forall d :: d in after.dead[|w.dead|..] ==> d.event == e
  {
    var written := HandleFromWrites(ctx, ctx.Matching(e), e, HandleReport([], []), w);
    assert (w.dead + written)[|w.dead|..] == written;
  }

  /** The trigger of the event was routed: in an event handled to the end, or before the write that failed. */
  ghost predicate RoutedIn(ctx: Context, events: seq<EventEnvelope>, w: World, e: EventEnvelope, name: string)
    decreases events
  {
    && events != []
    && var matching := ctx.Matching(events[0]);
       var (after, result) := Handle(ctx, events[0], w);
       || (events[0] == e && IsRouted(ctx, matching, e, w, name))
       || (result.Ok? && RoutedIn(ctx, events[1..], after, e, name))
  }

  /** A routed trigger is answered, and what is queued of an event was queued before or is of a routed trigger. */
  lemma {:induction false} HandleEachRoutes(ctx: Context, events: seq<EventEnvelope>, w: World,
      e: EventEnvelope, name: string)
    ensures
      var after := HandleEach(ctx, events, w).0;
      && (RoutedIn(ctx, events, w, e, name) ==> Answered(after, e, name))
      && (IsQueued(after.dead, e, name) ==> IsQueued(w.dead, e, name) || RoutedIn(ctx, events, w, e, name))
  {
    if events != [] {
      var (middle, result) := Handle(ctx, events[0], w);
      HandleRoutes(ctx, events[0], w, e, name);
      hide Handle, Answered, Grows, IsQueued;
      if result.Ok? {
        HandleEachRoutes(ctx, events[1..], middle, e, name);
        HandleEachGuarantees(ctx, events[1..], middle);
        if Answered(middle, e, name) {
          AnsweredGrows(ctx.env, middle, HandleEach(ctx, events[1..], middle).0, e, name);
        }
      }
    }
  }

  lemma HandleRoutes(ctx: Context, first: EventEnvelope, w: World, e: EventEnvelope, name: string)
    ensures
      var after := Handle(ctx, first, w).0;
      var routed := first == e && IsRouted(ctx, ctx.Matching(first), first, w, name);
      && (routed ==> Answered(after, e, name))
      && (IsQueued(after.dead, e, name) ==> IsQueued(w.dead, e, name) || routed)
  {
    if IsRouted(ctx, ctx.Matching(first), first, w, name) {
      RoutedIsAnswered(ctx, ctx.Matching(first), first, HandleReport([], []), w, name);
    }
    var written := HandleFromWrites(ctx, ctx.Matching(first), first, HandleReport([], []), w);
  }

  /** Exactly when a failure taken off the queue survives handling events one after the other, however it ends: it
      is queued again or has a job under its key if and only if its trigger was routed, or a job under its key
      existed before, or a call under its key landed. */
  lemma SurvivesIff(ctx: Context, events: seq<EventEnvelope>, w: World, e: EventEnvelope, name: string)
    requires w.dead == []
    ensures
      var after := HandleEach(ctx, events, w).0;
      var key := SubmissionKey(Identity(e), name);
      Answered(after, e, name) <==>
        || RoutedIn(ctx, events, w, e, name)
        || KeyHasJob(w.jobs, key)
        || exists newJob :: Landed(ctx.env, w, after, newJob) && newJob.uniqueKey == key
  {
    var after := HandleEach(ctx, events, w).0;
    var key := SubmissionKey(Identity(e), name);
    HandleEachRoutes(ctx, events, w, e, name);
    HandleEachGuarantees(ctx, events, w);
    hide HandleEach, RoutedIn, Landed;
    if KeyHasJob(w.jobs, key) { KeyKeepsJob(w.jobs, after.jobs, key); }
    if KeyHasJob(after.jobs, key) {
      var j :| 0 <= j < |after.jobs| && after.jobs[j].newJob.uniqueKey == key;
      if j < |w.jobs| {
        assert w.jobs[j] == after.jobs[j] && KeyHasJob(w.jobs, key);
      } else {
        assert Landed(ctx.env, w, after, after.jobs[j].newJob);
      }
    }
  }

  // ------------------------------------------------------------------ when every queue write succeeds

  ghost predicate HasTrigger(ctx: Context, e: EventEnvelope, name: string) {
    exists r :: r in ctx.Matching(e) && r.name == name
  }

  /** Of all the submissions the events ask for, only the event's own for that name is under its key. */
  ghost predicate KeyIsAlone(ctx: Context, events: seq<EventEnvelope>, e: EventEnvelope, name: string) {
    forall d, s :: d in events && s in ctx.Matching(d) && (d, s.name) != (e, name) ==>
      SubmissionKey(Identity(d), s.name) != SubmissionKey(Identity(e), name)
  }

  lemma WriteMakesItOk(ctx: Context, r: RegisteredTrigger, e: EventEnvelope, w: World)
    requires forall n :: ctx.env.writeSucceeds(n)
    ensures HandleOne(ctx, r, e, w).1.Ok?
  {
    assert ctx.env.writeSucceeds(Try(ctx, r, e, w).0.writes);
  }

  lemma {:induction false} WritesMakeItOk(ctx: Context, matching: seq<RegisteredTrigger>, e: EventEnvelope,
      report: HandleReport, w: World)
    requires forall n :: ctx.env.writeSucceeds(n)
    ensures HandleFrom(ctx, matching, e, report, w).1.Ok?
  {
    if matching != [] {
      var (after, outcome) := HandleOne(ctx, matching[0], e, w);
      WriteMakesItOk(ctx, matching[0], e, w);
      hide HandleOne;
      WritesMakeItOk(ctx, matching[1..], e, AddOutcome(report, outcome.value), after);
    }
  }

  lemma {:induction false} WritesFinishThePass(ctx: Context, events: seq<EventEnvelope>, w: World)
    requires forall n :: ctx.env.writeSucceeds(n)
    ensures |HandleEach(ctx, events, w).1| == |events|
  {
    if events != [] {
      WritesMakeItOk(ctx, ctx.Matching(events[0]), events[0], HandleReport([], []), w);
      hide HandleFrom;
      WritesFinishThePass(ctx, events[1..], Handle(ctx, events[0], w).0);
    }
  }

  lemma {:induction false} RoutedMatches(ctx: Context, matching: seq<RegisteredTrigger>, e: EventEnvelope, w: World,
      name: string)
    requires IsRouted(ctx, matching, e, w, name)
    ensures exists r :: r in matching && r.name == name
  {
    hide HandleOne;
    if matching[0].name != name {
      RoutedMatches(ctx, matching[1..], e, HandleOne(ctx, matching[0], e, w).0, name);
    }
  }

  lemma {:induction false} RoutedHasTrigger(ctx: Context, events: seq<EventEnvelope>, w: World, e: EventEnvelope,
      name: string)
    requires RoutedIn(ctx, events, w, e, name)
    ensures HasTrigger(ctx, e, name)
  {
    hide Handle;
    if events[0] == e && IsRouted(ctx, ctx.Matching(e), e, w, name) {
      RoutedMatches(ctx, ctx.Matching(e), e, w, name);
    } else {
      RoutedHasTrigger(ctx, events[1..], Handle(ctx, events[0], w).0, e, name);
    }
  }

  /** Every call of the pass is for one of its events. */
  lemma {:induction false} PassCalls(ctx: Context, events: seq<EventEnvelope>, w: World, i: nat)
    requires |w.calls| <= i < |HandleEach(ctx, events, w).0.calls|
    ensures
      exists d :: d in events && IsCallForSome(ctx, HandleEach(ctx, events, w).0.calls[i], d, ctx.Matching(d))
  {
    hide Handle, Grows, OneLivePerKey, AllSettled, AllOwn, Owned, IsCallForSome;
    if events != [] {
      HandleGuarantees(ctx, events[0], w);
      var (middle, result) := Handle(ctx, events[0], w);
      var after := HandleEach(ctx, events, w).0;
      if i < |middle.calls| {
        assert IsCallForSome(ctx, middle.calls[i], events[0], ctx.Matching(events[0]));
        if result.Ok? {
          HandleEachGuarantees(ctx, events[1..], middle);
          CallsGrow(ctx.env, middle, after);
        }
      } else {
        PassCalls(ctx, events[1..], middle, i);
      }
    }
  }

  /** A job the pass created is under the key of one of its events and a trigger that matches it. */
  lemma NewJobIsAsked(ctx: Context, events: seq<EventEnvelope>, w: World, j: nat)
      returns (d: EventEnvelope, s: RegisteredTrigger)
    requires |w.jobs| <= j < |HandleEach(ctx, events, w).0.jobs|
    ensures d in events && s in ctx.Matching(d)
    ensures HandleEach(ctx, events, w).0.jobs[j].newJob.uniqueKey == SubmissionKey(Identity(d), s.name)
  {
    HandleEachGuarantees(ctx, events, w);
    hide HandleEach;
    var after := HandleEach(ctx, events, w).0;
    var newJob := after.jobs[j].newJob;
    assert Landed(ctx.env, w, after, newJob);
    var i :| |w.calls| <= i < |after.calls| && after.calls[i] == newJob;
    PassCalls(ctx, events, w, i);
    d :| d in events && IsCallForSome(ctx, newJob, d, ctx.Matching(d));
    s :| s in ctx.Matching(d) && IsCallFor(ctx, newJob, d, s);
  }

  /** A key that no other submission of the pass has gains a job only through the event's own trigger. */
  lemma AloneKeyIsOld(ctx: Context, events: seq<EventEnvelope>, w: World, e: EventEnvelope, name: string)
    requires KeyIsAlone(ctx, events, e, name) && !HasTrigger(ctx, e, name)
    requires KeyHasJob(HandleEach(ctx, events, w).0.jobs, SubmissionKey(Identity(e), name))
    ensures KeyHasJob(w.jobs, SubmissionKey(Identity(e), name))
  {
    HandleEachGuarantees(ctx, events, w);
    hide HandleEach;
    var after := HandleEach(ctx, events, w).0;
    CallsGrow(ctx.env, w, after);
    var j :| 0 <= j < |after.jobs| && after.jobs[j].newJob.uniqueKey == SubmissionKey(Identity(e), name);
    if j >= |w.jobs| {
      var d, s := NewJobIsAsked(ctx, events, w, j);
      assert false;
    } else {
      assert w.jobs[j] == after.jobs[j];
    }
  }

  /** When every write to the queue succeeds the pass is never cut short, and a failure taken off the queue is answered
      if and only if a trigger of that name still matches its event, or a job is under its key. If no other event of
      the pass asks for that key, that is a job from before the pass. So a failure of a trigger that was renamed,
      disabled or changed since leaves the queue unanswered. */
  lemma AnsweredIfWritable(ctx: Context, events: seq<EventEnvelope>, w: World, e: EventEnvelope, name: string)
    requires w.dead == [] && e in events && forall n :: ctx.env.writeSucceeds(n)
    ensures
      var (after, reports) := HandleEach(ctx, events, w);
      var key := SubmissionKey(Identity(e), name);
      && |reports| == |events|
      && (Answered(after, e, name) <==> HasTrigger(ctx, e, name) || KeyHasJob(after.jobs, key))
      && (KeyIsAlone(ctx, events, e, name) ==>
            (Answered(after, e, name) <==> HasTrigger(ctx, e, name) || KeyHasJob(w.jobs, key)))
  {
    var (after, reports) := HandleEach(ctx, events, w);
    var key := SubmissionKey(Identity(e), name);
    WritesFinishThePass(ctx, events, w);
    HandleEachGuarantees(ctx, events, w);
    HandleEachRoutes(ctx, events, w, e, name);
    hide HandleEach, RoutedIn, IsQueued, KeyHasJob, Settled;
    CallsGrow(ctx.env, w, after);
    if HasTrigger(ctx, e, name) {
      var i :| 0 <= i < |events| && events[i] == e;
      var r :| r in ctx.Matching(e) && r.name == name;
      assert Settled(ctx, w, after, e, r);
      SettledIsAnswered(ctx, w, after, e, r);
    } else {
      if RoutedIn(ctx, events, w, e, name) { RoutedHasTrigger(ctx, events, w, e, name); }
      NothingIsQueued(w, e, name);
      if KeyIsAlone(ctx, events, e, name) && KeyHasJob(after.jobs, key) { AloneKeyIsOld(ctx, events, w, e, name); }
    }
    if KeyHasJob(w.jobs, key) { KeyKeepsJob(w.jobs, after.jobs, key); }
  }

  lemma NothingIsQueued(w: World, e: EventEnvelope, name: string)
    requires w.dead == []
    ensures !IsQueued(w.dead, e, name)
  {
  }

  // ------------------------------------------------------------------ passes as loops

  /** `worlds` are the worlds before each of the events handled so far and after the last of them. */
  ghost predicate IsPass(ctx: Context, events: seq<EventEnvelope>, worlds: seq<World>, reports: seq<HandleReport>) {
    && |worlds| == |reports| + 1 && |reports| <= |events|
    && forall i :: 0 <= i < |reports| ==> Handle(ctx, events[i], worlds[i]) == (worlds[i + 1], Ok(reports[i]))
  }

  /** No event is left, or the next one's handling fails. */
  ghost predicate PassEnds(ctx: Context, events: seq<EventEnvelope>, worlds: seq<World>, reports: seq<HandleReport>,
      last: World)
    requires IsPass(ctx, events, worlds, reports)
  {
    var n := |reports|;
    if n == |events| then last == worlds[n]
    else Handle(ctx, events[n], worlds[n]).1.Err? && last == Handle(ctx, events[n], worlds[n]).0
  }

  lemma PassGoesOn(ctx: Context, events: seq<EventEnvelope>, worlds: seq<World>, reports: seq<HandleReport>,
      after: World, report: HandleReport)
    requires IsPass(ctx, events, worlds, reports) && |reports| < |events|
    requires Handle(ctx, events[|reports|], worlds[|reports|]) == (after, Ok(report))
    ensures IsPass(ctx, events, worlds + [after], reports + [report])
  {
  }

  /** A loop that handles event after event until none is left or one fails computes `HandleEach`. */
  lemma {:induction false} PassIsHandleEach(ctx: Context, events: seq<EventEnvelope>, worlds: seq<World>,
      reports: seq<HandleReport>, last: World)
    requires IsPass(ctx, events, worlds, reports) && PassEnds(ctx, events, worlds, reports, last)
    ensures HandleEach(ctx, events, worlds[0]) == (last, reports)
  {
    if reports != [] {
      var rest, later, more := events[1..], worlds[1..], reports[1..];
      assert forall i :: 0 <= i < |more| ==> rest[i] == events[i + 1] && later[i] == worlds[i + 1];
      PassIsHandleEach(ctx, rest, later, more, last);
      assert Handle(ctx, events[0], worlds[0]) == (worlds[1], Ok(reports[0]));
      assert reports == [reports[0]] + more;
    }
  }

  /** What a broken pass costs: with the broker refusing every call and the queue refusing every write, handling the
      drained events again stops at the first of them and leaves no failure in the queue and no new job. */
  lemma BrokenPassLosesEverything(ctx: Context, events: seq<EventEnvelope>, w: World)
    requires events != [] && ctx.Matching(events[0]) != [] && w.dead == []
    requires forall n :: ctx.env.outcome(n) == FailsBefore && !ctx.env.writeSucceeds(n)
    ensures
      var (after, reports) := HandleEach(ctx, events, w);
      && reports == [] && after.jobs == w.jobs
      && forall e, name :: Answered(after, e, name) ==> KeyHasJob(w.jobs, SubmissionKey(Identity(e), name))
  {
    var matching := ctx.Matching(events[0]);
    TryIsRefused(ctx, matching[0], events[0], w);
    assert HandleOne(ctx, matching[0], events[0], w).1.Err?;
  }

  lemma TryIsRefused(ctx: Context, r: RegisteredTrigger, e: EventEnvelope, w: World)
    requires forall n :: ctx.env.outcome(n) == FailsBefore
    ensures Try(ctx, r, e, w).1.Err? && Try(ctx, r, e, w).0.jobs == w.jobs && Try(ctx, r, e, w).0.dead == w.dead
  {
    if r.binding.Bind(e).Ok? {
      SubmitIsRefused(ctx.env, NewJob(r.binding.Bind(e).value, SubmissionKey(Identity(e), r.name)), ctx.Attempts(), w);
    }
  }

  lemma {:induction false} SubmitIsRefused(env: Environment, newJob: NewJob, attempts: nat, w: World)
    requires attempts > 0 && forall n :: env.outcome(n) == FailsBefore
    ensures
      var (after, result) := Submit(env, newJob, attempts, w);
      result.Err? && after.jobs == w.jobs && after.dead == w.dead
  {
    if attempts > 1 { SubmitIsRefused(env, newJob, attempts - 1, Call(env, newJob, w).0); }
  }

  /** Two triggers of one name: the broker accepts both submissions, the handling succeeds, nothing is recorded as
      failed, and the second trigger has no job. */
  lemma SameNameSwallows(ctx: Context, r: RegisteredTrigger, s: RegisteredTrigger, e: EventEnvelope)
    requires ctx.registrations == [r, s] && r.name == s.name
    requires Selects(ctx.env.read, e)(r) && Selects(ctx.env.read, e)(s)
    requires r.binding.Bind(e).Ok? && s.binding.Bind(e).Ok?
    requires ctx.env.validLane(r.binding.lane) && ctx.env.validLane(s.binding.lane)
    requires !OfBinding(r.binding.Bind(e).value, s.binding)
    requires forall n :: ctx.env.outcome(n) == Accepts
    ensures
      var (after, result) := Handle(ctx, e, World([], [], [], 0));
      && result.Ok? && |result.value.submitted| == 2 && result.value.failed == [] && after.dead == []
      && forall j :: 0 <= j < |after.jobs| ==> !OfBinding(after.jobs[j].newJob.job, s.binding)
  {
    var none := World([], [], [], 0);
    var key := SubmissionKey(Identity(e), r.name);
    FilterAll(Selects(ctx.env.read, e), [r, s]);
    var first, second := NewJob(r.binding.Bind(e).value, key), NewJob(s.binding.Bind(e).value, key);
    var one := World([first], [BrokerJob(first, true)], [], 0);
    var two := World([first, second], [BrokerJob(first, true)], [], 0);
    assert [] + [first] == [first] && [] + [BrokerJob(first, true)] == [BrokerJob(first, true)];
    assert [first] + [second] == [first, second];
    assert Call(ctx.env, first, none) == (one, Ok(0));
    assert HandleOne(ctx, r, e, none) == (one, Ok(Submitted(0)));
    assert Call(ctx.env, second, one) == (two, Ok(0));
    assert HandleOne(ctx, s, e, one) == (two, Ok(Submitted(0)));
    hide HandleOne;
    assert [r, s][1..] == [s] && [s][1..] == [];
    var halfway := AddOutcome(HandleReport([], []), Submitted(0));
    var done := AddOutcome(halfway, Submitted(0));
    assert HandleFrom(ctx, [], e, done, two) == (two, Ok(done));
    assert HandleFrom(ctx, [s], e, halfway, one) == (two, Ok(done));
    assert Handle(ctx, e, none) == (two, Ok(done));
  }

  // ------------------------------------------------------------------ a configured runtime

  /** The call asks for what the entry says: its lane, kind and attempts, the event's payload, and the key of the
      event and the entry's name. */
  ghost predicate IsCallOf(ctx: Context, entry: TriggerEntry, e: EventEnvelope, call: NewJob) {
    && entry.enabled && entry.condition.Holds(ctx.env.read, e) && ctx.env.validLane(entry.lane)
    && call == NewJob(WorklaneJob(entry.lane, entry.kind, e.payload, entry.maxAttempts),
                      SubmissionKey(Identity(e), entry.name))
  }

  ghost predicate IsConfigured(entries: seq<TriggerEntry>, ctx: Context, e: EventEnvelope, call: NewJob) {
    exists entry :: entry in entries && IsCallOf(ctx, entry, e, call)
  }

  /** From document to broker: a runtime configured with a document calls the broker only for enabled entries whose
      condition holds, with the job the entry describes; and when the handling succeeds, such a call was accepted for
      every such entry, or the entry's failure was appended to the queue. */
  lemma HandlingMeansConfiguration(entries: seq<TriggerEntry>, ctx: Context, e: EventEnvelope, w: World, i: nat,
      entry: TriggerEntry)
    requires ctx.registrations == StableSort(BuildEntries(entries))
    ensures
      var (after, result) := Handle(ctx, e, w);
      && (|w.calls| <= i < |after.calls| ==> IsConfigured(entries, ctx, e, after.calls[i]))
      && (result.Ok? && entry in entries && entry.enabled && entry.condition.Holds(ctx.env.read, e) ==>
            || (exists k :: |w.calls| <= k < |after.calls| && ctx.env.outcome(k).Accepts?
                            && IsCallOf(ctx, entry, e, after.calls[k]))
            || QueuedSince(w, after, e, entry.name))
  {
    var matching := ctx.Matching(e);
    var (after, result) := Handle(ctx, e, w);
    HandleFromGrows(ctx, matching, e, HandleReport([], []), w);
    if |w.calls| <= i < |after.calls| {
      assert IsCallForSome(ctx, after.calls[i], e, matching);
      var r :| r in matching && IsCallFor(ctx, after.calls[i], e, r);
      MatchingIsRegistered(ctx, e, r);
      SortKeepsMembers(BuildEntries(entries), r);
      var own := EntryOf(entries, r);
      BuiltConditionMeansSpec(own.condition, ctx.env.read, e);
      assert IsCallOf(ctx, own, e, after.calls[i]);
    }
    if result.Ok? && entry in entries && entry.enabled && entry.condition.Holds(ctx.env.read, e) {
      var r := BuildEntry(entry);
      BuiltConditionMeansSpec(entry.condition, ctx.env.read, e);
      EntryIsBuilt(entries, entry);
      SortKeepsMembers(BuildEntries(entries), r);
      FilterMember(Selects(ctx.env.read, e), ctx.registrations, r);
      HandleFromSettles(ctx, matching, e, HandleReport([], []), w, r);
      if AcceptedFor(ctx, w, after, e, r) {
        var k :| |w.calls| <= k < |after.calls| && ctx.env.outcome(k).Accepts? && IsCallFor(ctx, after.calls[k], e, r);
        assert IsCallOf(ctx, entry, e, after.calls[k]);
      }
    }
  }

  /** What a configured runtime routes an event to, and in which order: the enabled entries whose condition holds, by
      falling priority and, within one, in document order. */
  lemma MatchingMeansConfiguration(entries: seq<TriggerEntry>, ctx: Context, e: EventEnvelope)
    requires ctx.registrations == StableSort(BuildEntries(entries))
    ensures SortedByPriority(ctx.Matching(e))
    ensures forall p :: Filter(WithPriority(p), ctx.Matching(e))
                     == BuildEntries(Filter(Routes(ctx.env.read, e, p), entries))
  {
    RoutingMeansConfiguration(entries, ctx.env.read, e);
  }

  lemma {:induction false} SortKeepsMembers(s: seq<RegisteredTrigger>, r: RegisteredTrigger)
    ensures r in StableSort(s) <==> r in s
  {
    StableSortIsStable(s);
    assert Filter(WithPriority(r.priority), StableSort(s)) == Filter(WithPriority(r.priority), s);
    FilterMember(WithPriority(r.priority), StableSort(s), r);
    FilterMember(WithPriority(r.priority), s, r);
  }

  lemma {:induction false} EntryOf(entries: seq<TriggerEntry>, r: RegisteredTrigger) returns (entry: TriggerEntry)
    requires r in BuildEntries(entries)
    ensures entry in entries && BuildEntry(entry) == r
  {
    if BuildEntry(entries[0]) == r {
      entry := entries[0];
    } else {
      entry := EntryOf(entries[1..], r);
    }
  }

  lemma {:induction false} EntryIsBuilt(entries: seq<TriggerEntry>, entry: TriggerEntry)
    requires entry in entries
    ensures BuildEntry(entry) in BuildEntries(entries)
  {
    if entry != entries[0] { EntryIsBuilt(entries[1..], entry); }
  }
}
