/** The sibling file a compaction writes before it renames it over the store: its name, and when two compactions can
    get in each other's way. */
module TempFiles {
  import opened Base

  // ------------------------------------------------------------------ names

  const EXTENSION := ".compact"
  const DELIVERED := ".delivered"

  /** Position of the last dot, or the length. */
  function LastDot(name: string): (p: nat)
    ensures p <= |name|
    ensures p < |name| ==> name[p] == '.'
    ensures forall i :: p < i < |name| ==> name[i] != '.'
    ensures p == |name| ==> '.' !in name
  {
    if name == [] then 0
    else if name[|name| - 1] == '.' then |name| - 1
    else
      var p := LastDot(name[..|name| - 1]);
      if p == |name| - 1 then |name| else p
  }

  /** A file name without its extension; a dot in front does not begin one. */
  function Stem(name: string): string {
    if LastDot(name) == 0 then name else name[..LastDot(name)]
  }

  predicate HasExtension(name: string) {
    exists i :: 0 < i < |name| && name[i] == '.'
  }

  /** The name with its extension replaced, or one added. */
  function TempName(name: string): string {
    Stem(name) + EXTENSION
  }

  function JournalName(name: string): string {
    name + DELIVERED
  }

  predicate EndsIn(name: string, tail: string) {
    |tail| <= |name| && name[|name| - |tail|..] == tail
  }

  lemma StemIffNoExtension(name: string)
    ensures Stem(name) == name <==> !HasExtension(name)
    ensures |Stem(name)| <= |name| && Stem(name) <= name
  {
    var p := LastDot(name);
    if 0 < p < |name| {
      assert name[p] == '.' && HasExtension(name);
    }
  }

  lemma TempOfJournal(name: string)
    requires name != []
    ensures TempName(JournalName(name)) == name + EXTENSION
  {
    var journal := JournalName(name);
    assert journal[|name|] == '.' && forall i :: |name| < i < |journal| ==> journal[i] == DELIVERED[i - |name|];
    assert LastDot(journal) == |name|;
    assert journal[..|name|] == name;
  }

  /** The journal's name is the log's with ".delivered" after it; a temporary file's is the file's with ".compact" for
      its extension, or after it if it has none. */
  lemma NamesAre(name: string, stem: string, extension: string)
    requires stem != [] && '.' !in extension
    ensures JournalName(name) == name + ".delivered"
    ensures !HasExtension(name) ==> TempName(name) == name + ".compact"
    ensures TempName(stem + "." + extension) == stem + ".compact"
  {
    StemIffNoExtension(name);
    var whole := stem + "." + extension;
    assert whole[|stem|] == '.' && forall i :: |stem| < i < |whole| ==> whole[i] == extension[i - |stem| - 1];
    assert LastDot(whole) == |stem|;
    assert whole[..|stem|] == stem;
  }

  /** The log, the journal and their two temporary files have four names if and only if the log's name has an
      extension and that is not the temporary one; without an extension both temporary files are one, and with that
      extension the log is its own. */
  lemma FourFilesIff(name: string)
    requires name != []
    ensures TempName(name) == TempName(JournalName(name)) <==> !HasExtension(name)
    ensures TempName(name) == name <==> HasExtension(name) && EndsIn(name, EXTENSION)
    ensures TempName(name) != JournalName(name)
    ensures TempName(JournalName(name)) != name && TempName(JournalName(name)) != JournalName(name)
  {
    TempOfJournal(name);
    StemIffNoExtension(name);
    var temp, journal := TempName(name), JournalName(name);
    if Stem(name) + EXTENSION == name + EXTENSION {
      assert (Stem(name) + EXTENSION)[..|Stem(name)|] == Stem(name);
      assert (name + EXTENSION)[..|name|] == name;
    }
    assert temp[|temp| - 1] == 't' && journal[|journal| - 1] == 'd';
    assert (name + EXTENSION)[|name + EXTENSION| - 1] == 't';
    OwnTempIff(name);
  }

  lemma OwnTempIff(name: string)
    requires name != []
    ensures TempName(name) == name <==> HasExtension(name) && EndsIn(name, EXTENSION)
  {
    StemIffNoExtension(name);
    if TempName(name) == name {
      assert name[|name| - |EXTENSION|..] == EXTENSION;
    }
    if HasExtension(name) && EndsIn(name, EXTENSION) {
      var p := |name| - |EXTENSION|;
      assert name[p] == EXTENSION[0] == '.';
      assert forall i :: p < i < |name| ==> name[i] == EXTENSION[i - p];
      assert LastDot(name) == p;
      assert name == name[..p] + name[p..];
    }
  }

  // ------------------------------------------------------------------ compactions of the two files

  datatype Which = Log | Journal

  function PathOf(name: string, f: Which): string {
    if f.Log? then name else JournalName(name)
  }

  function TempOf(name: string, f: Which): string {
    TempName(PathOf(name, f))
  }

  /** The directory; the compactions that have written and not yet renamed, one for each file at most, as its lock
      sees to; and what the completed compactions of each file wrote last. */
  datatype Disk = Disk(files: map<string, seq<byte>>, pending: map<Which, seq<byte>>, intended: map<Which, seq<byte>>)

  function Fresh(name: string): Disk {
    Disk(map[name := [], JournalName(name) := []], map[], map[Log := [], Journal := []])
  }

  datatype Step = Write(f: Which, bytes: seq<byte>) | Rename(f: Which)

  predicate Enabled(d: Disk, step: Step) {
    match step
    case Write(f, _) => f !in d.pending
    case Rename(f) => f in d.pending
  }

  /** Writing truncates whatever the temporary name holds; a rename moves whatever it holds by then, and fails when
      it holds nothing. */
  function Apply(name: string, d: Disk, step: Step): Disk
    requires Enabled(d, step)
  {
    match step
    case Write(f, bytes) =>
      Disk(d.files[TempOf(name, f) := bytes], d.pending[f := bytes], d.intended)
    case Rename(f) =>
      var temp, path := TempOf(name, f), PathOf(name, f);
      if temp !in d.files then Disk(d.files, d.pending - {f}, d.intended)
      else
        var moved := d.files[path := d.files[temp]];
        Disk(if temp == path then moved else moved - {temp}, d.pending - {f}, d.intended[f := d.pending[f]])
  }

  ghost predicate Run(name: string, disks: seq<Disk>, steps: seq<Step>) {
    && |disks| == |steps| + 1 && disks[0] == Fresh(name)
    && forall i :: 0 <= i < |steps| ==> Enabled(disks[i], steps[i]) && disks[i + 1] == Apply(name, disks[i], steps[i])
  }

  ghost predicate PathOk(name: string, d: Disk, f: Which) {
    f in d.intended && PathOf(name, f) in d.files && d.files[PathOf(name, f)] == d.intended[f]
  }

  /** Each path holds what the last completed compaction of its file wrote. */
  ghost predicate HoldsIntended(name: string, d: Disk) {
    forall f :: PathOk(name, d, f)
  }

  /** In every run of compactions of the two files, however they interleave, the files stay what was intended. */
  ghost predicate CompactionsAreSafe(name: string) {
    forall disks: seq<Disk>, steps: seq<Step>, i: nat ::
      Run(name, disks, steps) && i < |disks| ==> HoldsIntended(name, disks[i])
  }

  /** The file's path holds its intended bytes, its temporary file its pending ones. */
  ghost predicate FileOk(name: string, d: Disk, f: Which) {
    && PathOk(name, d, f)
    && (f in d.pending ==> TempOf(name, f) in d.files && d.files[TempOf(name, f)] == d.pending[f])
  }

  ghost predicate DiskInv(name: string, d: Disk) {
    forall f :: FileOk(name, d, f)
  }

  ghost predicate FourNames(name: string) {
    Distinct([PathOf(name, Log), PathOf(name, Journal), TempOf(name, Log), TempOf(name, Journal)])
  }

  lemma NamesApart(name: string)
    requires FourNames(name)
    ensures forall f, g :: TempOf(name, f) != PathOf(name, g)
    ensures forall f, g :: f != g ==> TempOf(name, f) != TempOf(name, g) && PathOf(name, f) != PathOf(name, g)
  {
    var names := [PathOf(name, Log), PathOf(name, Journal), TempOf(name, Log), TempOf(name, Journal)];
    assert names[0] != names[1] && names[0] != names[2] && names[0] != names[3];
    assert names[1] != names[2] && names[1] != names[3] && names[2] != names[3];
  }

  /** A write to one temporary file leaves every file as it should be. */
  lemma WriteKeepsFile(name: string, d: Disk, f: Which, bytes: seq<byte>, g: Which)
    requires FileOk(name, d, g) && TempOf(name, f) != PathOf(name, g)
    requires f != g ==> TempOf(name, f) != TempOf(name, g)
    ensures FileOk(name, Disk(d.files[TempOf(name, f) := bytes], d.pending[f := bytes], d.intended), g)
  {
    hide PathOf, TempOf;
  }

  lemma WriteKeeps(name: string, d: Disk, step: Step)
    requires FourNames(name) && DiskInv(name, d) && Enabled(d, step) && step.Write?
    ensures DiskInv(name, Apply(name, d, step))
  {
    NamesApart(name);
    hide PathOf, TempOf, FourNames, FileOk;
    forall g
      ensures FileOk(name, Apply(name, d, step), g)
    {
      WriteKeepsFile(name, d, step.f, step.bytes, g);
    }
  }

  /** A rename that finds its own bytes moves them to the path and touches nothing else. */
  lemma RenameMoves(name: string, d: Disk, step: Step)
    requires FourNames(name) && DiskInv(name, d) && Enabled(d, step) && step.Rename?
    ensures
      var temp, path, bytes := TempOf(name, step.f), PathOf(name, step.f), d.pending[step.f];
      Apply(name, d, step) == Disk(d.files[path := bytes] - {temp}, d.pending - {step.f}, d.intended[step.f := bytes])
  {
    NamesApart(name);
    assert FileOk(name, d, step.f);
  }

  lemma MovedAt(files: map<string, seq<byte>>, path: string, bytes: seq<byte>, temp: string, x: string)
    requires x != temp && (x == path || x in files)
    ensures
      var moved := files[path := bytes] - {temp};
      x in moved && moved[x] == if x == path then bytes else files[x]
  {
  }

  lemma RenameKeepsFile(name: string, d: Disk, step: Step, g: Which)
    requires FourNames(name) && Enabled(d, step) && step.Rename? && FileOk(name, d, step.f) && FileOk(name, d, g)
    requires
      var temp, path, bytes := TempOf(name, step.f), PathOf(name, step.f), d.pending[step.f];
      Apply(name, d, step) == Disk(d.files[path := bytes] - {temp}, d.pending - {step.f}, d.intended[step.f := bytes])
    ensures FileOk(name, Apply(name, d, step), g)
  {
    NamesApart(name);
    hide PathOf, TempOf, FourNames, Apply;
    var temp, path, bytes := TempOf(name, step.f), PathOf(name, step.f), d.pending[step.f];
    assert PathOf(name, g) != temp && TempOf(name, g) != path;
    MovedAt(d.files, path, bytes, temp, PathOf(name, g));
    if g != step.f {
      assert TempOf(name, g) != temp && PathOf(name, g) != path;
      if g in d.pending { MovedAt(d.files, path, bytes, temp, TempOf(name, g)); }
    }
  }

  lemma RenameKeeps(name: string, d: Disk, step: Step)
    requires FourNames(name) && DiskInv(name, d) && Enabled(d, step) && step.Rename?
    ensures DiskInv(name, Apply(name, d, step))
  {
    RenameMoves(name, d, step);
    forall g
      ensures FileOk(name, Apply(name, d, step), g)
    {
      assert FileOk(name, d, step.f) && FileOk(name, d, g);
      RenameKeepsFile(name, d, step, g);
    }
  }

  lemma FreshIsGood(name: string)
    ensures DiskInv(name, Fresh(name))
  {
    assert |JournalName(name)| != |name|;
    forall f
      ensures FileOk(name, Fresh(name), f)
    {
      match f
      case Log =>
      case Journal =>
    }
  }

  lemma {:induction false} InvHolds(name: string, disks: seq<Disk>, steps: seq<Step>, i: nat)
    requires name != [] && FourNames(name) && Run(name, disks, steps) && i < |disks|
    ensures DiskInv(name, disks[i])
  {
    hide DiskInv, Apply;
    if i == 0 {
      FreshIsGood(name);
    } else {
      InvHolds(name, disks, steps, i - 1);
      if steps[i - 1].Write? {
        WriteKeeps(name, disks[i - 1], steps[i - 1]);
      } else {
        RenameKeeps(name, disks[i - 1], steps[i - 1]);
      }
    }
  }

  /** Two compactions that share a temporary file: the log ends up with what the journal's wrote. */
  lemma SharedTempSwapsFiles(name: string, kept: seq<byte>, ids: seq<byte>)
      returns (disks: seq<Disk>, steps: seq<Step>)
    requires name != [] && TempName(name) == TempName(JournalName(name)) && TempName(name) != name
    ensures Run(name, disks, steps) && |steps| == 3 && Log in disks[3].intended && name in disks[3].files
    ensures disks[3].intended[Log] == kept && disks[3].files[name] == ids
  {
    steps := [Write(Log, kept), Write(Journal, ids), Rename(Log)];
    var d1 := Apply(name, Fresh(name), steps[0]);
    var d2 := Apply(name, d1, steps[1]);
    disks := [Fresh(name), d1, d2, Apply(name, d2, steps[2])];
  }

  /** A log that is its own temporary file: it is overwritten before the rename. */
  lemma OwnTempOverwrites(name: string, kept: seq<byte>)
      returns (disks: seq<Disk>, steps: seq<Step>)
    requires name != [] && TempName(name) == name
    ensures Run(name, disks, steps) && |steps| == 1 && Log in disks[1].intended && name in disks[1].files
    ensures disks[1].intended[Log] == [] && disks[1].files[name] == kept
  {
    steps := [Write(Log, kept)];
    disks := [Fresh(name), Apply(name, Fresh(name), steps[0])];
  }

  lemma FileOkIsIntended(name: string, d: Disk)
    requires DiskInv(name, d)
    ensures HoldsIntended(name, d)
  {
    forall f
      ensures PathOk(name, d, f)
    {
      assert FileOk(name, d, f);
    }
  }

  lemma SafeWhenApart(name: string)
    requires name != [] && FourNames(name)
    ensures CompactionsAreSafe(name)
  {
    hide FourNames, Run, HoldsIntended, DiskInv;
    forall disks: seq<Disk>, steps: seq<Step>, i: nat | Run(name, disks, steps) && i < |disks|
      ensures HoldsIntended(name, disks[i])
    {
      InvHolds(name, disks, steps, i);
      FileOkIsIntended(name, disks[i]);
    }
  }

  /** Compactions of log and journal never spoil each other's files, in any interleaving, if and only if the log's
      file name has an extension other than the temporary one. */
  lemma CompactionsAreSafeIff(name: string)
    requires name != []
    ensures CompactionsAreSafe(name) <==> HasExtension(name) && !EndsIn(name, EXTENSION)
  {
    FourFilesIff(name);
    hide Run, HasExtension, EndsIn, TempName;
    if !HasExtension(name) {
      var disks, steps := SharedTempSwapsFiles(name, [1], [2]);
      assert !PathOk(name, disks[3], Log);
      assert Run(name, disks, steps) && !HoldsIntended(name, disks[3]);
    } else if EndsIn(name, EXTENSION) {
      var disks, steps := OwnTempOverwrites(name, [1]);
      assert !PathOk(name, disks[1], Log);
      assert Run(name, disks, steps) && !HoldsIntended(name, disks[1]);
    } else {
      assert JournalName(name) != name;
      SafeWhenApart(name);
    }
  }
}
