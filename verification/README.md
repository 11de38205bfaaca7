# Triggerlane event store and delivery pipeline

A Dafny model of Triggerlane's durable event log and of the path from an accepted event to the jobs its
triggers submit. Proved are the laws the code promises, or the exact condition under which they hold: what a
crash can do to the files, what retention removes, that the file store behaves as the in-memory store, that
routing and submission mean what the configuration says, and that no interleaving of ingests, dispatches, sweeps,
replays, retries, crashes and restarts loses an acknowledged event or leaves two live jobs for one piece of work.

The model has three levels.

* **Values and functions**: the JSONL format at byte level (`Text`, `Jsonl`), retention (`Retention`), trigger
  conditions, stable order and keys (`Registry`), the backoff schedule (`Backoff`), and what handling an event
  does to the broker and the dead-trigger queue (`Runtime`, and call by call `HandleReports`).
* **Classes** with the fields and loops of the source, each method proved against those functions:
  `JsonlStore`, `InMemoryEventStore`, `FileEventStore`, `TriggerRegistry`, `TriggerRuntime`, `EventIngest`.
  Every I/O call takes a parameter that says how the environment answers it.
* **State machines** over single steps: `Delivery` (any number of tasks in a process that may crash at any step; a
  server recovers before it takes on anything else, a one-shot command does not recover; a broker that may fail
  before or after a job landed, an append that may fail before or after its line did), `StoreThreads` (any number of
  threads on one file store, down to single lock acquisitions) and `TempFiles` (compactions of log and journal
  through their temporary files). `HandlingSteps` and `OperationSteps` show that the runtime's and the ingest
  pipeline's operations are runs of `Delivery` steps, `StoreOperations` that the file store's are runs of
  `StoreThreads` steps.

The environment, the I/O results, the codec, the clock and the broker's answers are parameters; every result
holds for all of them. `GoodCodec` is what the stores need of a record's JSON text; it is proved for the
delivered-ids journal and is a hypothesis for events.

`dafny verify dfyconfig.toml` checks the whole project.

## Where the code does less than its comments say

* A tail cut inside a multi-byte character is not tolerated: the open fails (`Jsonl.CutAppend` says exactly when).
* A malformed last line that ends with a newline is tolerated when unterminated white space follows it
  (`Jsonl.MalformedTerminatedLine`).
* A torn tail is dropped from memory only. One more append fuses with it and the next open fails, unless the
  file was empty or ended with a newline (`Jsonl.AppendAfterRecovery`). A drain or a compaction repairs the file
  (`JsonlStores.RepairTornFile`).
* "Unchanged on error" of a prune holds for errors before the rename, and only those. After a later one the
  handle is on a file the path no longer names, and an append it acknowledges is lost
  (`JsonlStores.AcknowledgedThenLost`).
* A drain whose sync fails has already emptied the file while memory keeps the records (`JsonlStores.JsonlStore.Drain`).
* `recovered` and `still_failed` partition the distinct (event id, trigger name) pairs of the drained records,
  not the records: the two agree exactly when no pair was queued twice
  (`TriggerRuntimes.CountsPartitionDrainedIff`).
* A retry pass that stops on an error keeps a drained failure only if its trigger was routed before, or a job
  under its key exists (`Runtime.SurvivesIff`); with broker and queue both refusing, everything drained that never
  had a job is lost (`Runtime.BrokenPassLosesEverything`).
* Even when every write to the queue succeeds, a drained failure whose trigger no longer matches its event (it was
  renamed, disabled or changed since) and that has no job under its key leaves the queue unanswered
  (`Runtime.AnsweredIfWritable`); as it did not fail again, the pass counts it as recovered.
* The key of a submission, `identity:trigger name`, can be the key of another piece of work, in two ways.
  Two registrations can share it: when they have one name, which registry and configuration accept, or when a name
  ends with a colon and another name. The second trigger's submission is then taken for the first's
  (`Runtime.SameNameSwallows`). `DeliveryExactness.NothingIsLostIff` shows that these are the only failing names, by a
  run that loses a trigger for every one of them. And two events can share it under any names: when one carries as its
  idempotency key the id of another that has no key. They are no duplicates for ingest, yet the job of one answers
  for the other. `DeliveryOwners.JobsAreOwnIff` shows that this is the only such clash.
* A stored event is recovered if and only if its id is not already marked, whatever event it was marked for
  (`Ingest.RecoveredIffIdUnmarked`): one that reuses an id is acknowledged and never recovered
  (`Ingest.SameIdIsNeverRecovered`).
* A store whose file name has no extension shares one temporary file between log and journal, and two concurrent
  compactions can put one file's content in the other's place; one whose extension is `compact` is its own
  temporary file (`TempFiles.CompactionsAreSafeIff`).
* The backoff doubles exactly at every retry if and only if the base is zero or at least 7 ns
  (`Backoff.ExactIff`); every millisecond setting is.

## Model

| member | source | states |
|---|---|---|
| `Text.ValidUtf8Iff` | crates/triggerlane-storage/src/lib.rs:785-790 | Bytes pass the UTF-8 check if and only if they are the arithmetic one-to-four-byte encoding of some sequence of scalar values, up to 0x10FFFF and without the surrogates. |
| `Text.Utf8Cut` | crates/triggerlane-storage/src/lib.rs:785-790 | A cut of valid UTF-8 is valid exactly when it does not fall in front of a continuation byte. |
| `Text.BlankIff` | crates/triggerlane-storage/src/lib.rs:796 | A line trims to nothing if and only if it is the encoding of Unicode white space alone. |
| `Text.LinesOfTerminated` | crates/triggerlane-storage/src/lib.rs:793-797 | The lines of a body, byte 10 and a rest are the body, one byte 13 at its end dropped, and the rest's lines. |
| `Text.LinesOfTail` | crates/triggerlane-storage/src/lib.rs:793-797 | What follows the last newline is one line as it is, or none if it is empty. |
| `Jsonl.FileIsLines` | crates/triggerlane-storage/src/lib.rs:340-359 | The encoding of a log is that of its records in order, each its text followed by byte 10. |
| `Jsonl.WriteAll` | crates/triggerlane-storage/src/lib.rs:759-763 | The compaction loop writes exactly the encoding of the kept records, in order. |
| `Jsonl.ReadJsonl` | crates/triggerlane-storage/src/lib.rs:784-818 | The reading loop computes `Read`: the records, or the error with the number of the offending line. |
| `Jsonl.NonBlankIsExact` | crates/triggerlane-storage/src/lib.rs:793-797 | The lines that are read are those not blank, in order, each with its place among all lines. |
| `Jsonl.OpensIff` | crates/triggerlane-storage/src/lib.rs:772-819 | A file opens if and only if it encodes some text and every line that is not blank parses, save the last when the file does not end with byte 10; the records are those lines', in order; an error says that the bytes are no text, or names the first bad line by its place. |
| `Jsonl.ReadBack` | crates/triggerlane-storage/src/lib.rs:778-819 | Round trip: reopening the encoding of any records gives back those records. |
| `Jsonl.CutAppend` | crates/triggerlane-storage/src/lib.rs:340-359 | An append cut after any number of bytes reopens to the old records, or to those and the new one once its body is whole, except that a cut inside a character fails the open. |
| `Jsonl.AppendAfterRecovery` | crates/triggerlane-storage/src/lib.rs:802-816 | After recovery from any cut, one more append keeps file and memory in agreement, and the file openable, if and only if the file was empty or ended with a newline. |
| `Jsonl.FusedTail` | crates/triggerlane-storage/src/lib.rs:720-732 | A torn or unterminated body with another record written straight after it never opens. |
| `Jsonl.MalformedTerminatedLine` | crates/triggerlane-storage/src/lib.rs:803-815 | A malformed terminated line after a clean log fails the open, naming its number, if and only if no unterminated white space follows. |
| `Jsonl.IdCodecIsGood` | crates/triggerlane-storage/src/lib.rs:464-468 | The journal's encoding of ids is one line, parses back, has no parsable proper prefix, and no torn one parses with a whole one after it. |
| `Retention.ManualPolicyKeeps` | crates/triggerlane-storage/src/lib.rs:35-51 | A manual policy keeps exactly the records at or after the cutoff, in order, or exactly the last `max`. |
| `Retention.SizeBoundIsLongestFit` | crates/triggerlane-storage/src/lib.rs:137-161 | What the size bounds keep is the longest suffix fitting both. |
| `Retention.LongestFitIsUnique` | crates/triggerlane-storage/src/lib.rs:137-161 | There is only one longest fitting suffix. |
| `Retention.KeptIffFits` | crates/triggerlane-storage/src/lib.rs:146-158 | The record at a position is kept if and only if it and everything after it fit. |
| `Retention.ApplySizeBounds` | crates/triggerlane-storage/src/lib.rs:139-161 | The count cut and the greedy byte-budget walk compute that longest fitting suffix, and the budget never underflows. |
| `Retention.TotalSizeIsFileSize` | crates/triggerlane-storage/src/lib.rs:163-169 | The summed record sizes are the byte length of the rewritten file. |
| `Retention.RetainEvents` | crates/triggerlane-storage/src/lib.rs:90-114 | The age and grace filter followed by the size bounds computes `Retained`. |
| `Retention.RetentionIsSoundAndMaximal` | crates/triggerlane-storage/src/lib.rs:53-114 | An event is kept if and only if it has not expired and fits with the later survivors; the kept ones are the longest fitting suffix of the survivors; without a hard bound no undelivered event goes. |
| `Retention.RewrittenLogFits` | crates/triggerlane-storage/src/lib.rs:145-169 | The rewritten log has at most the allowed bytes. |
| `Retention.SweepsCompose` | crates/triggerlane-storage/src/lib.rs:90-161 | A sweep at t1 and one at t2 >= t1 keep a suffix of what one sweep at t2 keeps; a second sweep at the same instant removes nothing. |
| `Retention.SizeBoundsAgreeIff` | crates/triggerlane-storage/src/lib.rs:137-161 | The size bounds keep the same of a list and of a suffix of it if and only if they are equal, or the newest record the suffix lacks does not fit with it. |
| `Retention.SweepsAgreeIff` | crates/triggerlane-storage/src/lib.rs:90-161 | Sweeping at t1 and again at t2 keeps what one sweep at t2 keeps if and only if the first sweep's size bounds dropped no event that survives at t2, or the newest dropped one does not fit with the later ones. |
| `Retention.SweepsAgreeWithoutSizeBounds` | crates/triggerlane-storage/src/lib.rs:90-114 | Under policies without count and byte bounds they always agree. |
| `Retention.SweepsNeedNotAgree` | crates/triggerlane-storage/src/lib.rs:90-161 | An input on which they differ. |
| `Retention.FitsMeans` | crates/triggerlane-storage/src/lib.rs:137-169 | For the lines of a file, fitting the bounds is having at most so many records and at most so many encoded bytes. |
| `Retention.DeadTriggersGoOnlyForHardBounds` | crates/triggerlane-storage/src/lib.rs:116-135 | A dead trigger stays if and only if its event is at most the maximal age old and it fits with the later ones that are; the queue obeys both bounds and loses nothing without a hard bound. |
| `JsonlStores.JsonlStore.Open` | crates/triggerlane-storage/src/lib.rs:319-334 | Opening yields the records `Read` finds in the bytes and leaves the bytes alone, or fails as `Read` does. |
| `JsonlStores.JsonlStore.Append` | crates/triggerlane-storage/src/lib.rs:340-359 | Memory gains the record exactly when the append succeeds; a clean store stays clean; a failed sync leaves bytes memory lacks, with memory still a subsequence of the disk. |
| `JsonlStores.JsonlStore.Find` | crates/triggerlane-storage/src/lib.rs:365-370 | Finds the first record satisfying the predicate. |
| `JsonlStores.JsonlStore.Drain` | crates/triggerlane-storage/src/lib.rs:383-393 | Success takes every record and empties the file; an error keeps memory, and the file too unless the truncation had happened. |
| `JsonlStores.JsonlStore.Compact` | crates/triggerlane-storage/src/lib.rs:751-770 | Whatever fails, the path names the old file or the whole new one; an error after the rename leaves the handle on the old file. |
| `JsonlStores.JsonlStore.ReplaceAll` | crates/triggerlane-storage/src/lib.rs:397-403 | Memory and file become the given records on success; on an error before the rename nothing changes. |
| `JsonlStores.JsonlStore.Retain` | crates/triggerlane-storage/src/lib.rs:411-423 | Compacts to the survivors of the live records, and not at all when none goes. |
| `JsonlStores.JsonlStore.Prune` | crates/triggerlane-storage/src/lib.rs:425-443 | The same for a manual policy, with the count removed. |
| `JsonlStores.AppendRun` | crates/triggerlane-storage/src/lib.rs:349-357 | After a run of appends any of whose syncs are refused, memory has gained exactly the acknowledged records, and reopening finds them in order among all the records tried. |
| `JsonlStores.AcknowledgedThenLost` | crates/triggerlane-storage/src/lib.rs:767-769 | After a prune that failed, an append is acknowledged and visible; reopening finds all old records and it if the error came before the rename, and otherwise just what the prune kept. |
| `JsonlStores.RepairTornFile` | crates/triggerlane-storage/src/lib.rs:383-403 | Draining or compacting any file that opens leaves a clean file that reopens to what memory holds. |
| `EventStores.InMemoryEventStore.EnforceRetention` | crates/triggerlane-storage/src/lib.rs:275-289 | Events and delivered ids become the swept state, with the count removed. |
| `EventStores.InMemoryEventStore.Prune` | crates/triggerlane-storage/src/lib.rs:291-297 | Events become the pruned ones; delivered ids stay. |
| `EventStores.SweptIsExact` | crates/triggerlane-storage/src/lib.rs:275-289 | For every policy a swept store keeps the longest fitting suffix of the unexpired events: an event stays if and only if it was there, has not expired and fits with the later unexpired ones; the count and the log's length obey their bounds; the delivered ids are trimmed to the kept events' if any event went. |
| `EventStores.PrunedIsExact` | crates/triggerlane-storage/src/lib.rs:543-545 | A store pruned by age keeps, in order and multiplicity, exactly the events whose timestamp is not before the cutoff; by count, the last `max`; delivered ids stay. |
| `EventStores.LookupsAreExact` | crates/triggerlane-storage/src/lib.rs:244-260 | A lookup by id or by key finds nothing if no retained event has it, and otherwise the first that does. |
| `EventStores.FileEventStore.Open` | crates/triggerlane-storage/src/lib.rs:463-474 | The store means what reopening the two files means, or the open fails as that does. |
| `EventStores.FileEventStore.MarkDelivered` | crates/triggerlane-storage/src/lib.rs:494-502 | Succeeds when the id is known or its append does; on success exactly that id is added; cache and journal stay equal. |
| `EventStores.UndeliveredIsExact` | crates/triggerlane-storage/src/lib.rs:504-511 | The undelivered events are exactly the retained ones whose id is not known delivered, each as often and in the order appended. |
| `EventStores.FileEventStore.EnforceRetention` | crates/triggerlane-storage/src/lib.rs:513-541 | Fault-free it yields the swept state and count; wherever it stops, the disk holds both old files, or the rewritten log with the old or the rewritten journal. |
| `EventStores.SweepIsCrashSafe` | crates/triggerlane-storage/src/lib.rs:513-541 | Whatever a sweep leaves on disk reopens to the old state, the kept events with the old ids, or the swept state. |
| `EventStores.SweepKeepsUndelivered` | crates/triggerlane-storage/src/lib.rs:528-539 | Once the log is swapped, the undelivered events are the same before and after the journal rewrite. |
| `EventStores.CloseAndReopen` | crates/triggerlane-storage/src/lib.rs:463-474 | A clean close and reopen keeps the meaning of the store. |
| `EventStores.FileRefinesMemory` | crates/triggerlane-storage/src/lib.rs:244-302 | For every sequence of operations and clean reopenings, the file store and the in-memory store return the same observations: removed counts, get, key lookup, all, undelivered, len. |
| `Registry.BuiltConditionMeansSpec` | crates/triggerlane-cli/src/config.rs:84-97 | A built trigger matches exactly the events of which the configured condition holds, for any nesting of all_of and any_of. |
| `Registry.StableSortIsStable` | crates/triggerlane-runtime/src/lib.rs:79-83 | The order is by descending priority and keeps each priority's registrations in their order. |
| `Registry.StableOrderIsUnique` | crates/triggerlane-runtime/src/lib.rs:79-83 | Only one list is sorted and keeps each class's order. |
| `Registry.ResortIsOneSort` | crates/triggerlane-runtime/src/lib.rs:79-83 | Re-sorting after one more registration equals one stable sort of all registrations. |
| `Registry.TriggerRegistry.Register` | crates/triggerlane-runtime/src/lib.rs:79-83 | The registrations stay the one stable sort of everything registered. |
| `Registry.ParseRegistry` | crates/triggerlane-cli/src/config.rs:107-121 | The registry built from a document holds its entries, built, in document order before sorting. |
| `Registry.RoutingMeansConfiguration` | crates/triggerlane-runtime/src/lib.rs:85-92 | For every document and event, the matching triggers are exactly the enabled entries whose condition holds, highest priority first, ties in document order. |
| `Registry.RegistryMeansConfiguration` | crates/triggerlane-runtime/src/lib.rs:85-92 | The same of what a registry holding the document's entries yields. |
| `Registry.KeysTellApartIff` | crates/triggerlane-runtime/src/lib.rs:160-176 | Over the list of registrations, equal keys have equal identities and one position if and only if names are pairwise distinct and none ends with a colon and another. |
| `Registry.NoColonsSuffices` | crates/triggerlane-runtime/src/lib.rs:176 | Distinct names without colons are enough. |
| `Backoff.ExactIff` | crates/triggerlane-runtime/src/lib.rs:649-661 | The delay is the base doubled at each retry, at most 30,000,000,000 ns, at every retry if and only if the base is zero or at least 7 ns. |
| `Backoff.WaitIsSumOfDelays` | crates/triggerlane-runtime/src/lib.rs:374-382 | A submission of n + 1 calls waits in all for the delays of retries 1 to n: the base, twice the base, four times the base and so on, each at most 30 s, for a base that doubles. |
| `Backoff.NonDecreasingAndCapped` | crates/triggerlane-runtime/src/lib.rs:626-661 | For any base, later retries wait no less and none more than 30 s. |
| `Backoff.MillisecondSettingsAreExact` | crates/triggerlane-cli/src/main.rs:660-679 | Every millisecond setting doubles exactly, and the attempts are floored at one. |
| `Runtime.SubmitCalls` | crates/triggerlane-runtime/src/lib.rs:370-398 | A submission makes between one and `attempts` calls, all with one job and key; it stops at the first success and gives up only after all attempts. |
| `HandleReports.EnqueueIsExact` | crates/triggerlane-runtime/src/lib.rs:365-399 | A submission for a valid lane makes between one call and the configured `maxSubmissionAttempts`, one if that is zero; it stops at the first accepted call with the live job under the key, and gives up if and only if that many calls were refused; for an invalid lane it makes no call. |
| `Runtime.SubmitKeepsOneLive` | crates/triggerlane-runtime/src/lib.rs:352-399 | Retrying a submission never gives a key a second live job, whether errors come before or after the job landed. |
| `Runtime.HandleGuarantees` | crates/triggerlane-runtime/src/lib.rs:154-229 | A successful handling accounts for each matched trigger exactly once: a call of this handling for it was accepted, or this handling queued its failure. Every call is for the event and one of its triggers; when names are distinct and unambiguous, a trigger with an accepted call has a live job of its own binding. |
| `HandleReports.HandlingIsExact` | crates/triggerlane-runtime/src/lib.rs:154-229 | All that handling does: the matched triggers are attempted in turn, each with the calls and the job its binding, transform, lane and the option ask for; each without an accepted call costs one write to the queue; handling fails exactly at a write that does; the report's ids are those of live jobs of the accepted triggers, in order, its records and the queue's new ones those of the others. |
| `Runtime.HandleEachGuarantees` | crates/triggerlane-runtime/src/lib.rs:326-350 | The same for events handled one after the other, within the pass; the queue gains the failures of the handled ones in order, then only failures of the event at which the handling stopped. |
| `HandleReports.PassReportsAre` | crates/triggerlane-runtime/src/lib.rs:326-350 | Of a pass over events, each report has for each matched trigger, in order, a job still live under the event's and the trigger's key, or the trigger's record. |
| `Runtime.SurvivesIff` | crates/triggerlane-runtime/src/lib.rs:412-461 | A failure taken off the queue is queued again or has a job under its key if and only if its trigger was routed, or a job existed before, or a call under its key landed. |
| `Runtime.AnsweredIfWritable` | crates/triggerlane-runtime/src/lib.rs:412-461 | With every write succeeding a pass is never cut short, and a drained failure of one of its events is queued again or has a job if and only if a trigger of that name matches the event or a job is under the key, one from before the pass if no other submission of the pass has that key. |
| `Runtime.BrokenPassLosesEverything` | crates/triggerlane-runtime/src/lib.rs:413-441 | With every call and write refused, a pass stops at its first event and answers only what had a job before. |
| `Runtime.SameNameSwallows` | crates/triggerlane-runtime/src/lib.rs:170-183 | Two matching triggers of one name: handling succeeds, nothing is recorded as failed, and the second has no job. |
| `Runtime.HandlingMeansConfiguration` | crates/triggerlane-cli/src/config.rs:107-121 | A configured runtime calls the broker only for enabled entries whose condition holds, with the entry's lane, kind and attempts, the event's payload and the entry's key; when the handling succeeds, such a call of it was accepted for each of these entries, or it queued the entry's failure. |
| `Runtime.MatchingMeansConfiguration` | crates/triggerlane-cli/src/config.rs:107-121 | The triggers a configured runtime matches are the enabled entries whose condition holds, by falling priority and in document order. |
| `TriggerRuntimes.TriggerRuntime.EnqueueWithRetries` | crates/triggerlane-runtime/src/lib.rs:352-399 | The retry loop is one submission as `EnqueueIsExact` says, with the configured number of attempts, and the time it waits is the sum of the delays of its retries. |
| `Runtime.RecordIff` | crates/triggerlane-runtime/src/lib.rs:463-476 | A failure is queued if and only if its write succeeds; nothing else changes. |
| `TriggerRuntimes.TriggerRuntime.HandleEvent` | crates/triggerlane-runtime/src/lib.rs:154-229 | The handling loop is `Handle`, and on success its report has a live job's id or a record for each matched trigger, in order. |
| `TriggerRuntimes.TriggerRuntime.ReplayRange` | crates/triggerlane-runtime/src/lib.rs:326-350 | A replay handles exactly the previewed events in append order up to the first failure, touches no store, and on success reports each with its id and its own jobs and records. |
| `TriggerRuntimes.PreviewIsExact` | crates/triggerlane-runtime/src/lib.rs:306-324 | A preview keeps append order and holds exactly the events of the half-open window that pass the filter. |
| `TriggerRuntimes.PreviewSplits` | crates/triggerlane-runtime/src/lib.rs:306-324 | The previews of two adjacent windows are disjoint and together hold exactly the events of the whole window. |
| `TriggerRuntimes.GroupByEvent` | crates/triggerlane-runtime/src/lib.rs:419-431 | The grouping loop yields the distinct ids in first-seen order, each id's last event and its set of failed triggers. |
| `TriggerRuntimes.CountAgain` | crates/triggerlane-runtime/src/lib.rs:445-456 | The counting loop counts the earlier failures that failed again and those that did not. |
| `TriggerRuntimes.TriggerRuntime.RetryDeadTriggers` | crates/triggerlane-runtime/src/lib.rs:412-461 | A pass re-handles each distinct event once in first-seen order; on success the queue is exactly the renewed failures in order, the counts are those of the drained pairs, and the submitted ids are those of the events' live jobs, event by event; on an error the queue is the failures of the events handled, then failures of the event it stopped at. |
| `TriggerRuntimes.CountsPartitionDrainedIff` | crates/triggerlane-runtime/src/lib.rs:485-495 | recovered + still_failed is the number of distinct pairs drained, and the number of records if and only if no pair was queued twice. |
| `Base.FirstIsFirst` | crates/triggerlane-storage/src/lib.rs:365-370 | A lookup finds nothing if and only if no record satisfies the predicate, and otherwise the earliest that does. |
| `Ingest.DuplicateIff` | crates/triggerlane-runtime/src/lib.rs:711-725 | An event is a duplicate if and only if it carries a key a retained event carries; the earliest such event is reported. |
| `Ingest.EventIngest.IngestEvent` | crates/triggerlane-runtime/src/lib.rs:710-741 | A repeated key changes nothing; a failed append submits nothing; a failed handling or mark leaves the event stored and undelivered; success stores, handles and marks. |
| `Ingest.EventIngest.Accept` | crates/triggerlane-runtime/src/lib.rs:748-763 | A fresh event is stored undelivered; a repeated key or a failed append changes nothing. |
| `Ingest.EventIngest.Dispatch` | crates/triggerlane-runtime/src/lib.rs:768-773 | The event is handled, and marked exactly when handling and mark succeed. |
| `Ingest.EventIngest.RecoverUndelivered` | crates/triggerlane-runtime/src/lib.rs:780-790 | Ok(n) means n events were undelivered, all are handled, and none is left; on an error exactly the events before it are marked and, ids being distinct, the rest remain in order; every matched trigger of every handled event had a submission of the recovery accepted or its failure queued, and with distinct and unambiguous names a live job of its own. |
| `Ingest.RemainingAfter` | crates/triggerlane-runtime/src/lib.rs:780-790 | What stays undelivered once the first n pending events are marked. |
| `Ingest.RecoverTwice` | crates/triggerlane-runtime/src/lib.rs:780-790 | A second recovery after a successful one returns 0. |
| `Ingest.RecoveredIffIdUnmarked` | crates/triggerlane-runtime/src/lib.rs:780-790 | A newly stored event is among the undelivered if and only if its id is not marked already, whatever event it was marked for. |
| `Ingest.SameIdIsNeverRecovered` | crates/triggerlane-runtime/src/lib.rs:748-790 | Of two events with one id, the second is acknowledged and stored, and a recovery succeeds without handling it. |
| `DeliveryTheorems.NoAcknowledgedEventIsLost` | crates/triggerlane-runtime/src/lib.rs:710-790 | In every state of every run, each stored event is in the log, on disk and not journalled; or for each matching registration an earlier step accepted this event's own submission with a job of its identity and registration live right then, or recorded its failure; or an earlier step removed it by a hard bound or a prune and it was not stored again. |
| `DeliveryTheorems.AnswerHasJob` | crates/triggerlane-runtime/src/lib.rs:384-393 | When the broker accepts a submission, anew or as a duplicate, a job of the event's identity and this very registration is live. |
| `DeliveryExactness.NothingIsLostIff` | crates/triggerlane-runtime/src/lib.rs:160-203 | That each stored event is safe, for all triggers and runs under given trigger names, holds if and only if the names are pairwise distinct and none ends with a colon and another. |
| `DeliveryExactness.SwallowingRun` | crates/triggerlane-runtime/src/lib.rs:170-203 | For all other names, a run whose broker accepts everything and that ends with an event journalled whose trigger was neither submitted nor recorded. |
| `DeliveryOwners.JobsAreOwnIff` | crates/triggerlane-runtime/src/lib.rs:160-176 | For runs that store only given events, under good names: every accepted submission is answered by a live job of that very event or of one with its idempotency key, if and only if no event's key is the id of another that has no key. |
| `DeliveryOwners.MistakingRun` | crates/triggerlane-runtime/src/lib.rs:160-183 | For any two events of one identity that are no duplicates, a run in which everything succeeds and the second's submission is answered by the first's job. |
| `DeliveryOwners.NoEventIsTakenForAnother` | crates/triggerlane-runtime/src/lib.rs:710-790 | While no stored event's key is the id of another without a key, each stored event awaits a restart, was removed by a bound or a prune, or each matching registration has a submission answered by its own or a duplicate's live job, or a recorded failure. |
| `DeliveryTheorems.GraceOnlyRunsLoseNothing` | crates/triggerlane-storage/src/lib.rs:53-84 | Without hard bounds and prunes, each stored event is in the log, on disk and unjournalled, or all its matching registrations were answered or recorded. |
| `DeliveryTheorems.OnlyDealtWithEventsAreMarked` | crates/triggerlane-storage/src/lib.rs:494-541 | An id in the journal or the cached set is that of a stored event for each of whose matching registrations an earlier step accepted the event's own submission or recorded its failure. |
| `DeliveryTheorems.RecoveryIsComplete` | crates/triggerlane-cli/src/main.rs:681-691 | When a starting server opens, every event stored so far, lines a refused sync left on disk included, has its own submission accepted or its failure recorded for every trigger, or was removed by a hard bound or a prune. |
| `DeliveryTheorems.AtMostOneLiveJob` | crates/triggerlane-runtime/src/lib.rs:160-176 | At most one job per event identity and trigger name is live in any state of any run, whatever the names. |
| `DeliveryTheorems.NoFailureIsForgotten` | crates/triggerlane-runtime/src/lib.rs:412-461 | A failure recorded at some step, with no submission of that event under that name accepted since, is queued, is held by a retry pass, or was given up since it was last recorded, by a step that interrupted its pass or bounded the queue. |
| `DeliveryTheorems.AsynchronousPathConserves` | crates/triggerlane-http/src/lib.rs:606-622 | The channel is what was sent and not yet received, in order, within capacity; every event accepted since the start is in hand, in the channel, finished and dealt with, or left; every event ever accepted, left or cut off by a crash, is still recoverable, dealt with, or removed by a bound. |
| `DeliveryHistory.BoundedIffRemoved` | crates/triggerlane-storage/src/lib.rs:411-443 | An event counts as removed if and only if some step of the run removed it undelivered, by a prune, its age or the size bounds, and none since stored or recovered it again. |
| `DeliveryHistory.DroppedIffGivenUp` | crates/triggerlane-runtime/src/lib.rs:413-441 | A failure counts as dropped if and only if some step bounded it away or ended the pass that held it, and none since recorded it again. |
| `DeliveryHistory.OpenIffUnanswered` | crates/triggerlane-runtime/src/lib.rs:412-461 | A failure counts as open if and only if some step recorded it and none since accepted a submission of that event under that name. |
| `DeliveryInvariants.StoreInvKept` | crates/triggerlane-runtime/src/lib.rs:710-790 | Every step, crash and restart included, keeps: only ids of finished events are marked, a stored event is in the log, bounded away or finished, and disk holds what memory does; finished means the event's own submission accepted, or its failure recorded, for each trigger. |
| `DeliveryInvariants.LandCreates` | crates/triggerlane-runtime/src/lib.rs:384-393 | Because keys tell registrations apart, a submission the broker took for a duplicate has a job of its own identity and registration. |
| `DeliveryInvariants.BrokerInvKept` | crates/triggerlane-runtime/src/lib.rs:352-399 | Every step keeps: an identity and registration count as created exactly when they have a job. |
| `DeliveryInvariants.OneLiveKept` | crates/triggerlane-runtime/src/lib.rs:384-393 | No step gives a key a second live job, whatever the names. |
| `DeliveryRecovery.StartupInvKept` | crates/triggerlane-cli/src/main.rs:681-691 | Every step keeps: while a server starts only one recovery runs, and every retained event is known delivered or still before it. |
| `DeliveryAccounting.QueueInvKept` | crates/triggerlane-runtime/src/lib.rs:412-461 | Every step keeps: a failure not answered since it was recorded is queued, held by a retry pass, or dropped. |
| `DeliveryAccounting.AsyncInvKept` | crates/triggerlane-cli/src/main.rs:786-794 | Every step keeps each accepted event stored and in a place, and the channel in send order. |
| `HandlingSteps.HandlingIsARunOfSteps` | crates/triggerlane-runtime/src/lib.rs:154-229 | The runtime's handling of an event is a run of one task's protocol steps, ending with the same jobs and failures, whatever the environment does. |
| `OperationSteps.DispatchingIsARunOfSteps` | crates/triggerlane-runtime/src/lib.rs:768-773 | So is handling and marking an event, with the outcome of `Dispatch`. |
| `OperationSteps.IngestingIsARunOfSteps` | crates/triggerlane-runtime/src/lib.rs:710-741 | So is an ingest, with the outcome of `IngestEvent` for every answer of broker, queue and files; a refused sync leaves the line on disk. |
| `OperationSteps.AcceptingIsARunOfSteps` | crates/triggerlane-runtime/src/lib.rs:748-763 | So is the fast half of an asynchronous ingest, with the outcome of `Accept`. |
| `OperationSteps.RecoveringIsARunOfSteps` | crates/triggerlane-runtime/src/lib.rs:780-790 | So is startup recovery; the server opens if and only if every pending event was marked. |
| `OperationSteps.StartupIsARunOfSteps` | crates/triggerlane-cli/src/main.rs:681-691 | So is a server's startup from its first step, with the outcome of `RecoverUndelivered` on the undelivered events. |
| `OperationSteps.RestartReopens` | crates/triggerlane-storage/src/lib.rs:463-474 | A crash and a restart leave what reopening the two files yields. |
| `OperationSteps.ReceivingIsARunOfSteps` | crates/triggerlane-cli/src/main.rs:786-794 | So is a turn of the dispatcher: the next event of the channel, with the outcome of `Dispatch`, and back to the channel. |
| `OperationSteps.PassIsARunOfSteps` | crates/triggerlane-runtime/src/lib.rs:338-349 | So is the handling of planned events one after the other. |
| `OperationSteps.ReplayingIsARunOfSteps` | crates/triggerlane-runtime/src/lib.rs:326-350 | So is a replay from its first step. |
| `OperationSteps.RetryingIsARunOfSteps` | crates/triggerlane-runtime/src/lib.rs:412-461 | So is a dead-trigger retry, drained first, with the outcome of `RetryDeadTriggers`. |
| `OperationSteps.SweepingIsARunOfSteps` | crates/triggerlane-storage/src/lib.rs:513-541 | So is a sweep, with the outcome of `EnforceRetention`. |
| `OperationSteps.PruningIsAStep` | crates/triggerlane-storage/src/lib.rs:425-443 | A prune is one step, with the outcome of `Prune`. |
| `StoreThreads.UnlockedFilesAgreeWithMemory` | crates/triggerlane-storage/src/lib.rs:340-443 | For any number of threads, whenever a file's lock is free its bytes are exactly the encoding of its list in memory. |
| `StoreThreads.SweepsOnlyRemoveMarkedEvents` | crates/triggerlane-storage/src/lib.rs:494-541 | With sweeps split into snapshot, locked retain, journal rewrite and set rewrite, journal and set hold only marked ids, and under grace-only policies no event that was never marked is removed. |
| `StoreThreads.LocksAreOrdered` | crates/triggerlane-storage/src/lib.rs:383-443 | A thread waits only for a lock that comes after every lock it holds. |
| `StoreThreads.NoDeadlock` | crates/triggerlane-storage/src/lib.rs:340-541 | Whenever a thread is in an operation, some thread can take a step. |
| `StoreOperations.AppendAlone` | crates/triggerlane-storage/src/lib.rs:340-359 | One thread alone runs an append through its locks to the log with the event at its end, in memory and in the file. |
| `StoreOperations.MarkAlone` | crates/triggerlane-storage/src/lib.rs:494-502 | A mark alone runs to the marked state, with one more line in the journal if the id was not known. |
| `StoreOperations.SweepAlone` | crates/triggerlane-storage/src/lib.rs:513-541 | A sweep alone runs through both files' locks to the swept state, with both files rewritten to it if any event went. |
| `StoreOperations.PruneAlone` | crates/triggerlane-storage/src/lib.rs:425-443 | A prune alone runs to the pruned state, with the log rewritten to it if any event went. |
| `TempFiles.NamesAre` | crates/triggerlane-storage/src/lib.rs:456-460 | The journal's name is the log's with ".delivered" after it; a temporary file's has ".compact" for the extension, or after the name if there is none. |
| `TempFiles.FourFilesIff` | crates/triggerlane-storage/src/lib.rs:752 | Log, journal and their temporary files have four names if and only if the log's name has an extension other than the temporary one. |
| `TempFiles.SharedTempSwapsFiles` | crates/triggerlane-storage/src/lib.rs:751-770 | With a shared temporary file, two interleaved compactions leave the journal's content in the log. |
| `TempFiles.CompactionsAreSafeIff` | crates/triggerlane-storage/src/lib.rs:751-770 | In every interleaving of compactions both files hold what was intended, if and only if the log's name has an extension other than the temporary one. |

## Left out

- Real files, fsync, advisory locks and UUIDs: the disk is bytes, a sync is the success of a call, one process owns the files, ids are values the environment promises to use for one event only.
- Loss of a directory entry after a rename whose directory sync failed and power went: the model's rename is durable at once.
- serde_json and JSON Pointer: a codec with `GoodCodec`, and an uninterpreted reader of payload fields. A record that fails to serialize is left out with it.
- Brokers beyond the enqueue contract: reuse of a live key, creation otherwise, errors before or after; leases and backlog queries are absent.
- HTTP routing, authentication, metrics, tracing, `observed_lanes`, command-line and environment parsing, duration parsing, list paging, `follow_up`, source adapters and the examples.
- Mutex poisoning and panics: operations are taken not to panic.
- `InMemoryEventStore` under threads: it is a sequential specification; the opposite lock orders of its `undelivered` and `enforce_retention` are not modelled.
- Append and compaction errors in the state machines: in `Delivery` an append that fails leaves nothing or the whole line, in log and journal, and only nothing in the queue; `StoreThreads` takes appends as successful; both take rewrites as successful. `JsonlStore` has partial writes and all the errors.
- DeliveryTheorems.NoAcknowledgedEventIsLost: supposes that an id is used for one event only, as fresh UUIDs are; `Ingest.SameIdIsNeverRecovered` shows what happens otherwise. An event stored a second time under its own id is the same event, and what was submitted for it counts.
- A duplicate arriving while the first copy's append is under way is stored twice, as in the code; the registry and its settings are the same after every restart.
- The journal and dead-trigger files in `Delivery` are lists; their byte form is that of `Jsonl`.
- A recovery that fails ends the process in the source; in `Delivery` the starting server may also try again, and several dispatchers may run.
- Compactions of more than one store at a time, and a crash inside the write of a temporary file, in `TempFiles`.
- Integer widths other than those of the backoff: counts, byte sums and timestamps are unbounded, and date overflow does not occur.
- `FileDeadTriggerQueue` and `InMemoryDeadTriggerQueue` as classes: each only wraps a `JsonlStore` or a list.
- `replay` of a single event: one lookup and one handling.
