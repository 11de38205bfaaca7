/** The append-only store of one JSONL file: bytes on disk, records in memory, and an open handle. */
module JsonlStores {
  import opened Base
  import opened Text
  import opened Jsonl
  import opened Retention

  datatype IoError = IoError

  /** How the environment answers an append: all of it, a part written and then an error, or all written
      and the sync refused. */
  datatype AppendIo = Appended | WriteFails(written: nat) | SyncFails

  /** How it answers a compaction: the temporary file fails after some bytes, the rename fails, or the rename
      happens and the directory sync or the reopening fails. */
  datatype CompactIo = Compacted | TempFails(written: nat) | RenameFails | DirSyncFails | RelockFails
  {
    predicate BeforeRename() { TempFails? || RenameFails? }
  }

  datatype DrainIo = Drained | TruncateFails | DrainSyncFails

  /** What is written when a write stops after `n` bytes. */
  function Prefix(bytes: seq<byte>, n: nat): (p: seq<byte>)
    ensures p <= bytes && |p| <= n && (p == bytes || |p| == n)
  {
    if n < |bytes| then bytes[..n] else bytes
  }

  class JsonlStore<T(!new)> {
    const codec: Codec<T>
    /** What the path names on disk. */
    var file: seq<byte>
    /** The sibling file a compaction writes first. */
    var temp: seq<byte>
    var records: seq<T>
    /** Whether the open handle is the file the path names; if not, what the handle's file holds. */
    var linked: bool
    var unlinkedFile: seq<byte>

    /** The handle is the path's file, and the file is exactly the records. */
    ghost predicate Clean()
      reads this
    {
      linked && file == EncodeAll(codec, records)
    }

    /** Everything in memory is on disk, in order, possibly among records whose append reported an error. */
    ghost predicate Recoverable()
      reads this
    {
      linked && exists onDisk :: file == EncodeAll(codec, onDisk) && IsSubsequence(records, onDisk)
    }

    constructor (codec: Codec<T>, file: seq<byte>, records: seq<T>)
      ensures this.codec == codec && this.file == file && this.records == records && linked
    {
      this.codec := codec;
      this.file := file;
      this.records := records;
      temp, linked, unlinkedFile := [], true, [];
    }

    /** Open the file with these bytes. A clean file opens to a clean store; of a torn one only memory is
        repaired, the file keeps its bytes. */
    static method Open(codec: Codec<T>, bytes: seq<byte>) returns (result: Result<JsonlStore<T>, OpenError>)
      ensures result.Ok? ==> fresh(result.value) && result.value.codec == codec && result.value.file == bytes
                             && result.value.linked && Read(codec, bytes) == Ok(result.value.records)
      ensures result.Err? ==> Read(codec, bytes) == Err(result.error)
    {
      var read := ReadJsonl(codec, bytes);
      match read {
        case Err(error) =>
          return Err(error);
        case Ok(records) =>
          var store := new JsonlStore(codec, bytes, records);
          return Ok(store);
      }
    }

    method Append(record: T, io: AppendIo) returns (result: Result<(), IoError>)
      modifies this
      ensures result.Ok? <==> io.Appended?
      ensures records == if io.Appended? then old(records) + [record] else old(records)
      ensures temp == old(temp) && linked == old(linked)
      ensures
        var landed := if io.WriteFails? then Prefix(Line(codec, record), io.written) else Line(codec, record);
        && file == (if linked then old(file) + landed else old(file))
        && unlinkedFile == (if linked then old(unlinkedFile) else old(unlinkedFile) + landed)
      ensures old(Clean()) && io.Appended? ==> Clean()
      ensures old(Recoverable()) && !io.WriteFails? ==> Recoverable()
    {
      var encoded := codec.encode(record) + [NEWLINE];
      ghost var before := records;
      var landed := if io.WriteFails? then Prefix(encoded, io.written) else encoded;
      if linked {
        file := file + landed;
      } else {
        unlinkedFile := unlinkedFile + landed;
      }
      if io.Appended? {
        records := records + [record];
        EncodeAllAppend(codec, before, record);
      }
      if old(Recoverable()) && !io.WriteFails? {
        ghost var onDisk :| old(file) == EncodeAll(codec, onDisk) && IsSubsequence(before, onDisk);
        EncodeAllAppend(codec, onDisk, record);
        SubsequenceAppend(before, onDisk, record);
        assert file == EncodeAll(codec, onDisk + [record]);
      }
      return if io.Appended? then Ok(()) else Err(IoError);
    }

    method Find(p: T -> bool) returns (found: Option<T>)
      ensures found == First(p, records)
    {
      var i := 0;
      while i < |records|
        invariant i <= |records|
        invariant First(p, records) == First(p, records[i..])
      {
        if p(records[i]) {
          return Some(records[i]);
        }
        assert records[i..][1..] == records[i + 1..];
        i := i + 1;
      }
      return None;
    }

    /** Take every record out. The file is truncated first, so a failing sync leaves it empty while memory
        still holds the records. */
    method Drain(io: DrainIo) returns (result: Result<seq<T>, IoError>)
      modifies this
      ensures io.Drained? ==> result == Ok(old(records)) && records == [] && (linked ==> Clean())
      ensures !io.Drained? ==> result == Err(IoError) && records == old(records)
      ensures temp == old(temp) && linked == old(linked)
      ensures file == if io.TruncateFails? || !linked then old(file) else []
      ensures unlinkedFile == if io.TruncateFails? || linked then old(unlinkedFile) else []
    {
      if io.TruncateFails? {
        return Err(IoError);
      }
      if linked {
        file := [];
      } else {
        unlinkedFile := [];
      }
      if io.DrainSyncFails? {
        return Err(IoError);
      }
      result := Ok(records);
      records := [];
    }

    /** Write the temporary file, rename it over the path, sync the directory, reopen. An error after the
        rename leaves the old handle on a file the path no longer names. */
    method Compact(kept: seq<T>, io: CompactIo) returns (ok: bool)
      modifies this
      ensures ok == io.Compacted?
      ensures records == old(records)
      ensures file == if io.BeforeRename() then old(file) else EncodeAll(codec, kept)
      ensures linked == if io.BeforeRename() then old(linked) else io.Compacted?
      ensures io.BeforeRename() ==> unlinkedFile == old(unlinkedFile)
      ensures io.DirSyncFails? || io.RelockFails? ==>
        unlinkedFile == if old(linked) then old(file) else old(unlinkedFile)
    {
      var bytes := WriteAll(codec, kept);
      match io {
        case TempFails(written) =>
          temp := Prefix(bytes, written);
          return false;
        case RenameFails =>
          temp := bytes;
          return false;
        case _ =>
          if linked {
            unlinkedFile := file;
          }
          file, temp, linked := bytes, [], io.Compacted?;
          return io.Compacted?;
      }
    }

    method ReplaceAll(kept: seq<T>, io: CompactIo) returns (result: Result<(), IoError>)
      modifies this
      ensures result.Ok? <==> io.Compacted?
      ensures records == if io.Compacted? then kept else old(records)
      ensures file == if io.BeforeRename() then old(file) else EncodeAll(codec, kept)
      ensures linked == if io.BeforeRename() then old(linked) else io.Compacted?
      ensures io.Compacted? ==> Clean()
      ensures io.BeforeRename() && old(Clean()) ==> Clean()
    {
      var ok := Compact(kept, io);
      if !ok {
        return Err(IoError);
      }
      records := kept;
      return Ok(());
    }

    /** Compact to the survivors of the live records, if any goes. */
    method Retain(keep: seq<T> -> seq<T>, io: CompactIo) returns (result: Result<nat, IoError>)
      requires |keep(records)| <= |records|
      modifies this
      ensures
        var kept := keep(old(records));
        var removed := |old(records)| - |kept|;
        if removed == 0 then
          result == Ok(0) && records == old(records) && file == old(file) && linked == old(linked)
        else
          && result == (if io.Compacted? then Ok(removed) else Err(IoError))
          && records == (if io.Compacted? then kept else old(records))
          && file == (if io.BeforeRename() then old(file) else EncodeAll(codec, kept))
          && linked == (if io.BeforeRename() then old(linked) else io.Compacted?)
      ensures old(Clean()) && (io.BeforeRename() || io.Compacted?) ==> Clean()
    {
      var kept := keep(records);
      var removed := |records| - |kept|;
      if removed > 0 {
        var replaced := ReplaceAll(kept, io);
        if replaced.Err? {
          return Err(IoError);
        }
      }
      return Ok(removed);
    }

    method Prune(policy: ManualRetention, timestamp: T -> int, io: CompactIo) returns (result: Result<nat, IoError>)
      modifies this
      ensures
        var kept := policy.Keep(old(records), timestamp);
        var removed := |old(records)| - |kept|;
        if removed == 0 then
          result == Ok(0) && records == old(records) && file == old(file) && linked == old(linked)
        else
          && result == (if io.Compacted? then Ok(removed) else Err(IoError))
          && records == (if io.Compacted? then kept else old(records))
          && file == (if io.BeforeRename() then old(file) else EncodeAll(codec, kept))
          && linked == (if io.BeforeRename() then old(linked) else io.Compacted?)
      ensures old(Clean()) && (io.BeforeRename() || io.Compacted?) ==> Clean()
    {
      result := Retain(items => policy.Keep(items, timestamp), io);
    }
  }

  /** The records whose sync is not refused. */
  function Acknowledged<T>(records: seq<T>, syncFails: nat -> bool): seq<T> {
    if records == [] then []
    else
      var n := |records| - 1;
      Acknowledged(records[..n], syncFails) + (if syncFails(n) then [] else [records[n]])
  }

  /** How a run of appends stands after the first `n`. */
  ghost predicate AppendedSoFar<T>(c: Codec<T>, file: seq<byte>, memory: seq<T>, before: seq<T>, records: seq<T>,
      syncFails: nat -> bool)
  {
    && file == EncodeAll(c, before + records)
    && memory == before + Acknowledged(records, syncFails)
    && IsSubsequence(memory, before + records)
  }

  lemma AppendOneMore<T>(c: Codec<T>, file: seq<byte>, memory: seq<T>, before: seq<T>, records: seq<T>,
      syncFails: nat -> bool, r: T)
    requires AppendedSoFar(c, file, memory, before, records, syncFails)
    ensures AppendedSoFar(c, file + Line(c, r), if syncFails(|records|) then memory else memory + [r], before,
                          records + [r], syncFails)
  {
    EncodeAllAppend(c, before + records, r);
    SubsequenceAppend(memory, before + records, r);
    hide EncodeAll, IsSubsequence;
    assert before + (records + [r]) == (before + records) + [r];
    assert (records + [r])[..|records|] == records;
    var acked := Acknowledged(records, syncFails);
    assert before + (acked + [r]) == (before + acked) + [r] && acked + [] == acked;
  }

  /** A run of appends, any of whose syncs may be refused: memory gains exactly the acknowledged records, and
      reopening finds all of them, in order, among all the records tried. */
  method AppendRun<T(!new)>(store: JsonlStore<T>, records: seq<T>, syncFails: nat -> bool)
    requires GoodCodec(store.codec) && store.Clean()
    modifies store
    ensures store.linked && store.records == old(store.records) + Acknowledged(records, syncFails)
    ensures Read(store.codec, store.file) == Ok(old(store.records) + records)
    ensures IsSubsequence(store.records, old(store.records) + records)
  {
    ghost var before := store.records;
    hide EncodeAll, IsSubsequence, Read, Acknowledged, AppendedSoFar;
    NothingAppended(store.codec, before, syncFails);
    for i := 0 to |records|
      invariant store.linked
      invariant AppendedSoFar(store.codec, store.file, store.records, before, records[..i], syncFails)
    {
      AppendOneMore(store.codec, store.file, store.records, before, records[..i], syncFails, records[i]);
      assert records[..i + 1] == records[..i] + [records[i]];
      AppendWhole(store, records[i], syncFails(i));
    }
    assert records[..|records|] == records;
    AppendedReopens(store.codec, store.file, store.records, before, records, syncFails);
  }

  lemma AppendedReopens<T(!new)>(c: Codec<T>, file: seq<byte>, memory: seq<T>, before: seq<T>, records: seq<T>,
      syncFails: nat -> bool)
    requires GoodCodec(c) && AppendedSoFar(c, file, memory, before, records, syncFails)
    ensures memory == before + Acknowledged(records, syncFails) && IsSubsequence(memory, before + records)
    ensures Read(c, file) == Ok(before + records)
  {
    ReadBack(c, before + records);
  }

  method AppendWhole<T(!new)>(store: JsonlStore<T>, r: T, syncFails: bool)
    requires store.linked
    modifies store
    ensures store.linked && store.file == old(store.file) + Line(store.codec, r)
    ensures store.records == if syncFails then old(store.records) else old(store.records) + [r]
  {
    var _ := store.Append(r, if syncFails then SyncFails else Appended);
  }

  lemma NothingAppended<T>(c: Codec<T>, before: seq<T>, syncFails: nat -> bool)
    ensures AppendedSoFar(c, EncodeAll(c, before), before, before, [], syncFails)
  {
    assert before + [] == before;
    SubsequenceReflexive(before);
  }

  /** "Unchanged on error" ends at the rename. After a prune that failed, an append is acknowledged and visible in
      memory; reopening the path finds all the records if the error came before the rename, and otherwise only what
      the prune kept. */
  method AcknowledgedThenLost<T(!new)>(store: JsonlStore<T>, policy: ManualRetention, timestamp: T -> int,
      io: CompactIo, record: T) returns (pruned: Result<nat, IoError>, acked: Result<(), IoError>)
    requires GoodCodec(store.codec) && store.Clean()
    requires |policy.Keep(store.records, timestamp)| < |store.records|
    requires !io.Compacted?
    modifies store
    ensures pruned.Err? && acked.Ok?
    ensures store.records == old(store.records) + [record]
    ensures Read(store.codec, store.file)
         == Ok(if io.BeforeRename() then old(store.records) + [record] else policy.Keep(old(store.records), timestamp))
  {
    pruned := store.Prune(policy, timestamp, io);
    acked := store.Append(record, Appended);
    ReadBack(store.codec, policy.Keep(old(store.records), timestamp));
    ReadBack(store.codec, old(store.records) + [record]);
  }

  /** Draining or compacting repairs a file whose tail was torn, whatever its bytes were. */
  method RepairTornFile<T(!new)>(codec: Codec<T>, bytes: seq<byte>, kept: seq<T>, drain: bool)
      returns (store: Option<JsonlStore<T>>)
    requires GoodCodec(codec)
    ensures store.Some? <==> Read(codec, bytes).Ok?
    ensures store.Some? ==> fresh(store.value) && store.value.codec == codec && store.value.Clean()
    ensures store.Some? ==> Read(codec, store.value.file) == Ok(if drain then [] else kept)
  {
    var attempt := JsonlStore.Open(codec, bytes);
    if attempt.Err? {
      return None;
    }
    if drain {
      var taken := attempt.value.Drain(Drained);
    } else {
      var replaced := attempt.value.ReplaceAll(kept, Compacted);
    }
    ReadBack(codec, if drain then [] else kept);
    return Some(attempt.value);
  }
}
