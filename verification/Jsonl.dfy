/** The JSONL file format: one encoded record per line, and what opening a file makes of its bytes. */
module Jsonl {
  import opened Base
  import opened Text

  /** A record codec: the serializer, and the parser of one line. */
  datatype Codec<!T> = Codec(encode: T -> seq<byte>, decode: seq<byte> -> Option<T>)

  predicate IsEncoding(b: seq<byte>) {
    && b != [] && 0x20 < b[0] < 0x80
    && ValidUtf8(b)
    && forall i :: 0 <= i < |b| ==> b[i] != NEWLINE && b[i] != CARRIAGE_RETURN
  }

  /** What the stores rely on from compact JSON text: an encoding is one line of UTF-8 opened by a bracket
      or a quote, it parses back, no proper prefix of it parses, and no torn encoding parses with a whole one
      written straight after it. */
  ghost predicate GoodCodec<T(!new)>(c: Codec<T>) {
    && (forall r: T :: IsEncoding(c.encode(r)) && c.decode(c.encode(r)) == Some(r))
    && (forall r: T, k: nat :: k < |c.encode(r)| ==> c.decode(c.encode(r)[..k]).None?)
    && (forall r: T, s: T, k: nat :: 0 < k <= |c.encode(r)| ==> c.decode(c.encode(r)[..k] + c.encode(s)).None?)
  }

  /** One record as it is appended: body and newline. */
  function Line<T>(c: Codec<T>, r: T): seq<byte> {
    c.encode(r) + [NEWLINE]
  }

  function EncodeAll<T>(c: Codec<T>, rs: seq<T>): seq<byte> {
    if rs == [] then [] else Line(c, rs[0]) + EncodeAll(c, rs[1..])
  }

  /** A file is written record by record, each as its text and a newline (byte 10). */
  lemma FileIsLines<T>(c: Codec<T>, rs: seq<T>, r: T)
    ensures EncodeAll(c, []) == []
    ensures EncodeAll(c, rs + [r]) == EncodeAll(c, rs) + c.encode(r) + [10]
  {
    EncodeAllAppend(c, rs, r);
    assert EncodeAll(c, rs) + (c.encode(r) + [10]) == EncodeAll(c, rs) + c.encode(r) + [10];
  }

  lemma {:induction false} EncodeAllAppend<T>(c: Codec<T>, rs: seq<T>, r: T)
    ensures EncodeAll(c, rs + [r]) == EncodeAll(c, rs) + Line(c, r)
  {
    if rs == [] {
      assert EncodeAll(c, [r]) == Line(c, r) + [];
    } else {
      assert (rs + [r])[1..] == rs[1..] + [r];
      EncodeAllAppend(c, rs[1..], r);
    }
  }

  /** Rewriting a file record by record, body then newline. */
  method WriteAll<T>(c: Codec<T>, kept: seq<T>) returns (bytes: seq<byte>)
    ensures bytes == EncodeAll(c, kept)
  {
    bytes := [];
    for i := 0 to |kept|
      invariant bytes == EncodeAll(c, kept[..i])
    {
      EncodeAllAppend(c, kept[..i], kept[i]);
      assert kept[..i + 1] == kept[..i] + [kept[i]];
      bytes := bytes + c.encode(kept[i]);
      bytes := bytes + [NEWLINE];
      assert bytes == EncodeAll(c, kept[..i]) + Line(c, kept[i]);
    }
    assert kept[..|kept|] == kept;
  }

  // ------------------------------------------------------------------ opening

  datatype OpenError = InvalidUtf8 | BadLine(number: nat)

  datatype NumberedLine = NumberedLine(number: nat, text: seq<byte>)

  /** The lines that are not blank, with their line numbers. */
  function NonBlank(lines: seq<seq<byte>>, number: nat): seq<NumberedLine> {
    if lines == [] then []
    else if Blank(lines[0]) then NonBlank(lines[1..], number + 1)
    else [NumberedLine(number, lines[0])] + NonBlank(lines[1..], number + 1)
  }

  function Prepend<T>(rs: seq<T>, parsed: Result<seq<T>, OpenError>): Result<seq<T>, OpenError> {
    match parsed
    case Ok(more) => Ok(rs + more)
    case Err(error) => Err(error)
  }

  lemma PrependTwice<T>(a: seq<T>, b: seq<T>, parsed: Result<seq<T>, OpenError>)
    ensures Prepend(a, Prepend(b, parsed)) == Prepend(a + b, parsed)
    ensures Prepend([], parsed) == parsed
  {
    match parsed
    case Ok(more) => assert a + (b + more) == (a + b) + more && [] + more == more;
    case Err(_) =>
  }

  lemma PrependCons<T>(rs: seq<T>, parsed: Result<seq<T>, OpenError>)
    requires rs != []
    ensures Prepend([rs[0]], Prepend(rs[1..], parsed)) == Prepend(rs, parsed)
  {
    PrependTwice([rs[0]], rs[1..], parsed);
    assert [rs[0]] + rs[1..] == rs;
  }

  lemma NonBlankCons(line: seq<byte>, more: seq<seq<byte>>, number: nat)
    ensures NonBlank([line] + more, number)
         == if Blank(line) then NonBlank(more, number + 1)
            else [NumberedLine(number, line)] + NonBlank(more, number + 1)
  {
    assert ([line] + more)[1..] == more;
  }

  /** The records of the lines; an unparsable last line is dropped when the file is not terminated. */
  function Parse<T>(c: Codec<T>, lines: seq<NumberedLine>, terminated: bool): Result<seq<T>, OpenError> {
    if lines == [] then Ok([])
    else
      match c.decode(lines[0].text)
      case Some(r) => Prepend([r], Parse(c, lines[1..], terminated))
      case None => if |lines| == 1 && !terminated then Ok([]) else Err(BadLine(lines[0].number))
  }

  function Read<T>(c: Codec<T>, bytes: seq<byte>): Result<seq<T>, OpenError> {
    if !ValidUtf8(bytes) then Err(InvalidUtf8)
    else Parse(c, NonBlank(Lines(bytes), 1), EndsWithNewline(bytes))
  }

  method ReadJsonl<T>(c: Codec<T>, bytes: seq<byte>) returns (result: Result<seq<T>, OpenError>)
    ensures result == Read(c, bytes)
  {
    var terminated := EndsWithNewline(bytes);
    if !ValidUtf8(bytes) {
      return Err(InvalidUtf8);
    }
    var lines := NonBlank(Lines(bytes), 1);
    var records: seq<T> := [];
    var position := 0;
    assert lines[0..] == lines;
    PrependTwice([], [], Parse(c, lines, terminated));
    while position < |lines|
      invariant position <= |lines|
      invariant Parse(c, lines, terminated) == Prepend(records, Parse(c, lines[position..], terminated))
    {
      assert lines[position..][1..] == lines[position + 1..];
      match c.decode(lines[position].text) {
        case Some(record) =>
          PrependTwice(records, [record], Parse(c, lines[position + 1..], terminated));
          records := records + [record];
        case None =>
          if position == |lines| - 1 && !terminated {
            assert records + [] == records;
            break;
          }
          return Err(BadLine(lines[position].number));
      }
      position := position + 1;
    }
    assert records + [] == records;
    return Ok(records);
  }

  /** The numbered lines are the lines that are not blank, in order, each with its place among all lines, counted from
      `first`. */
  ghost predicate Numbers(lines: seq<seq<byte>>, first: nat, numbered: seq<NumberedLine>) {
    && (forall i :: 0 <= i < |numbered| ==>
          var at := numbered[i].number - first;
          0 <= at < |lines| && lines[at] == numbered[i].text && !Blank(lines[at]))
    && (forall i, j :: 0 <= i < j < |numbered| ==> numbered[i].number < numbered[j].number)
    && forall k :: 0 <= k < |lines| && !Blank(lines[k]) ==> NumberedLine(k + first, lines[k]) in numbered
  }

  lemma {:induction false} NonBlankIsExact(lines: seq<seq<byte>>, first: nat)
    ensures Numbers(lines, first, NonBlank(lines, first))
  {
    hide Blank;
    if lines != [] {
      NonBlankIsExact(lines[1..], first + 1);
      var rest := NonBlank(lines[1..], first + 1);
      NumbersLater(lines, first, rest);
      if !Blank(lines[0]) { NumbersCons(lines, first, rest); }
    }
  }

  /** Numbers of all lines but the first, seen among all lines. */
  ghost predicate NumbersAfterFirst(lines: seq<seq<byte>>, first: nat, rest: seq<NumberedLine>) {
    && (forall i :: 0 <= i < |rest| ==>
          var at := rest[i].number - first;
          0 < at < |lines| && lines[at] == rest[i].text && !Blank(lines[at]))
    && (forall i, j :: 0 <= i < j < |rest| ==> rest[i].number < rest[j].number)
    && forall k :: 0 < k < |lines| && !Blank(lines[k]) ==> NumberedLine(k + first, lines[k]) in rest
  }

  lemma NumbersLater(lines: seq<seq<byte>>, first: nat, rest: seq<NumberedLine>)
    requires lines != [] && Numbers(lines[1..], first + 1, rest)
    ensures NumbersAfterFirst(lines, first, rest)
    ensures Blank(lines[0]) ==> Numbers(lines, first, rest)
  {
    hide Blank;
    assert forall k :: 0 < k < |lines| ==> lines[k] == lines[1..][k - 1];
  }

  lemma NumbersCons(lines: seq<seq<byte>>, first: nat, rest: seq<NumberedLine>)
    requires lines != [] && !Blank(lines[0]) && NumbersAfterFirst(lines, first, rest)
    ensures Numbers(lines, first, [NumberedLine(first, lines[0])] + rest)
  {
    hide Blank;
    var numbered := [NumberedLine(first, lines[0])] + rest;
    forall k | 0 <= k < |lines| && !Blank(lines[k])
      ensures NumberedLine(k + first, lines[k]) in numbered
    {
      assert numbered[0] == NumberedLine(first, lines[0]);
      if k > 0 { assert NumberedLine(k + first, lines[k]) in rest; }
    }
  }

  /** The line is read over when it does not parse: the last one of a file that is not terminated. */
  predicate IsTornTail(lines: seq<NumberedLine>, i: nat, terminated: bool) {
    i == |lines| - 1 && !terminated
  }

  /** Every line parses, save perhaps a torn tail. */
  ghost predicate Parsable<T>(c: Codec<T>, lines: seq<NumberedLine>, terminated: bool) {
    forall i: nat :: i < |lines| ==> c.decode(lines[i].text).Some? || IsTornTail(lines, i, terminated)
  }

  /** The lines' own records, in order: all of them, or all but a torn tail that does not parse. */
  ghost predicate RecordsOf<T>(c: Codec<T>, lines: seq<NumberedLine>, rs: seq<T>) {
    && (|rs| == |lines| || (|rs| == |lines| - 1 && c.decode(lines[|rs|].text).None?))
    && forall i :: 0 <= i < |rs| ==> c.decode(lines[i].text) == Some(rs[i])
  }

  /** The number is that of the first line that neither parses nor is a torn tail. */
  ghost predicate IsFirstBad<T>(c: Codec<T>, lines: seq<NumberedLine>, terminated: bool, number: nat) {
    exists i: nat :: i < |lines| && lines[i].number == number
                     && c.decode(lines[i].text).None? && !IsTornTail(lines, i, terminated)
                     && forall j: nat :: j < i ==> c.decode(lines[j].text).Some?
  }

  /** Exactly which files open, and with what: UTF-8, and every line that is not blank parses, save the last of them
      when the file's last byte is not a newline; the records are those lines', in order. A file that does not open is
      not UTF-8, or the error names its first bad line by its place among all lines, counted from one. */
  lemma OpensIff<T>(c: Codec<T>, bytes: seq<byte>)
    ensures
      var lines := NonBlank(Lines(bytes), 1);
      var terminated := bytes != [] && bytes[|bytes| - 1] == 10;
      && Numbers(Lines(bytes), 1, lines)
      && (Read(c, bytes) == Err(InvalidUtf8) <==> !exists text :: EncodeText(text) == bytes)
      && (Read(c, bytes).Ok? <==> (exists text :: EncodeText(text) == bytes) && Parsable(c, lines, terminated))
      && (Read(c, bytes).Ok? ==> RecordsOf(c, lines, Read(c, bytes).value))
      && (Read(c, bytes).Err? && Read(c, bytes).error.BadLine? ==>
            IsFirstBad(c, lines, terminated, Read(c, bytes).error.number))
  {
    ValidUtf8Iff(bytes);
    NonBlankIsExact(Lines(bytes), 1);
    ParsesIff(c, NonBlank(Lines(bytes), 1), EndsWithNewline(bytes));
  }

  lemma {:induction false} ParsesIff<T>(c: Codec<T>, lines: seq<NumberedLine>, terminated: bool)
    ensures
      var parsed := Parse(c, lines, terminated);
      && (parsed.Ok? <==> Parsable(c, lines, terminated))
      && (parsed.Ok? ==> RecordsOf(c, lines, parsed.value))
      && (parsed.Err? ==> parsed.error.BadLine? && IsFirstBad(c, lines, terminated, parsed.error.number))
  {
    if lines != [] {
      ParsesIff(c, lines[1..], terminated);
      assert forall i :: 1 <= i < |lines| ==> lines[i] == lines[1..][i - 1];
      assert forall i :: 0 <= i < |lines| - 1 ==> lines[1..][i] == lines[i + 1];
      var parsed, rest := Parse(c, lines, terminated), Parse(c, lines[1..], terminated);
      if c.decode(lines[0].text).Some? && rest.Err? {
        var i: nat :| i < |lines[1..]| && lines[1..][i].number == rest.error.number
                      && c.decode(lines[1..][i].text).None? && !IsTornTail(lines[1..], i, terminated)
                      && forall j: nat :: j < i ==> c.decode(lines[1..][j].text).Some?;
        assert lines[i + 1].number == parsed.error.number && !IsTornTail(lines, i + 1, terminated);
        forall j: nat | j < i + 1
          ensures c.decode(lines[j].text).Some?
        {
          if j > 0 { assert lines[j] == lines[1..][j - 1]; }
        }
      } else if parsed.Err? {
        assert !IsTornTail(lines, 0, terminated);
      }
    }
  }

  /** A log followed by anything opens as the log's records followed by what the rest holds. */
  lemma {:induction false} ParseAfterLog<T(!new)>(c: Codec<T>, rs: seq<T>, rest: seq<byte>, number: nat,
      terminated: bool, parsed: Result<seq<T>, OpenError>)
    requires GoodCodec(c)
    requires parsed == Parse(c, NonBlank(Lines(rest), number + |rs|), terminated)
    ensures Parse(c, NonBlank(Lines(EncodeAll(c, rs) + rest), number), terminated) == Prepend(rs, parsed)
  {
    hide EncodeAll, Parse, NonBlank, Lines, Prepend, GoodCodec, Line;
    if rs == [] {
      NoLog(c, rest);
      PrependTwice([], [], parsed);
    } else {
      var more := EncodeAll(c, rs[1..]) + rest;
      var inner := Prepend(rs[1..], parsed);
      ParseAfterLog(c, rs[1..], rest, number + 1, terminated, parsed);
      LogCons(c, rs, rest);
      ParseFirst(c, rs[0], more, number, terminated, inner);
      PrependCons(rs, parsed);
    }
  }

  lemma NoLog<T>(c: Codec<T>, rest: seq<byte>)
    ensures EncodeAll(c, []) + rest == rest
  {
  }

  lemma LogCons<T>(c: Codec<T>, rs: seq<T>, rest: seq<byte>)
    requires rs != []
    ensures EncodeAll(c, rs) + rest == Line(c, rs[0]) + (EncodeAll(c, rs[1..]) + rest)
  {
  }

  lemma ParseFirst<T(!new)>(c: Codec<T>, r: T, more: seq<byte>, number: nat,
      terminated: bool, parsed: Result<seq<T>, OpenError>)
    requires GoodCodec(c)
    requires parsed == Parse(c, NonBlank(Lines(more), number + 1), terminated)
    ensures Parse(c, NonBlank(Lines(Line(c, r) + more), number), terminated) == Prepend([r], parsed)
  {
    var body := c.encode(r);
    assert IsEncoding(body) && c.decode(body) == Some(r);
    LinesOfTerminated(body, more);
    NonBlankCons(body, Lines(more), number);
    ParseCons(c, NumberedLine(number, body), NonBlank(Lines(more), number + 1), terminated, r);
  }

  lemma ParseCons<T>(c: Codec<T>, line: NumberedLine, more: seq<NumberedLine>, terminated: bool, r: T)
    requires c.decode(line.text) == Some(r)
    ensures Parse(c, [line] + more, terminated) == Prepend([r], Parse(c, more, terminated))
  {
    assert ([line] + more)[1..] == more;
  }

  lemma {:induction false} LogIsUtf8<T(!new)>(c: Codec<T>, rs: seq<T>, rest: seq<byte>)
    requires GoodCodec(c)
    ensures ValidUtf8(EncodeAll(c, rs) + rest) <==> ValidUtf8(rest)
  {
    if rs == [] {
      assert EncodeAll(c, rs) + rest == rest;
    } else {
      LineIsUtf8(c, rs[0]);
      var more := EncodeAll(c, rs[1..]) + rest;
      LogCons(c, rs, rest);
      Utf8Concat(Line(c, rs[0]), more);
      LogIsUtf8(c, rs[1..], rest);
    }
  }

  lemma LineIsUtf8<T(!new)>(c: Codec<T>, r: T)
    requires GoodCodec(c)
    ensures ValidUtf8(Line(c, r))
  {
    assert IsEncoding(c.encode(r));
    Utf8Concat(c.encode(r), [NEWLINE]);
  }

  lemma LogEndsWithNewline<T>(c: Codec<T>, rs: seq<T>)
    ensures rs != [] ==> EndsWithNewline(EncodeAll(c, rs))
  {
    if rs != [] {
      EncodeAllAppend(c, rs[..|rs| - 1], rs[|rs| - 1]);
      assert rs == rs[..|rs| - 1] + [rs[|rs| - 1]];
    }
  }

  lemma EndsAsRest(front: seq<byte>, rest: seq<byte>)
    requires rest != []
    ensures EndsWithNewline(front + rest) == EndsWithNewline(rest)
  {
    assert (front + rest)[|front + rest| - 1] == rest[|rest| - 1];
  }

  lemma NoLines<T>(c: Codec<T>, number: nat, terminated: bool)
    ensures Parse(c, NonBlank(Lines([]), number), terminated) == Ok([])
  {
  }

  /** Opening `EncodeAll(rs) + rest`. */
  lemma ReadAfterLog<T(!new)>(c: Codec<T>, rs: seq<T>, rest: seq<byte>)
    requires GoodCodec(c)
    ensures Read(c, EncodeAll(c, rs) + rest)
         == if !ValidUtf8(rest) then Err(InvalidUtf8)
            else Prepend(rs, Parse(c, NonBlank(Lines(rest), 1 + |rs|), EndsWithNewline(rest)))
  {
    hide EncodeAll, Lines, NonBlank, Parse, Prepend, ValidUtf8, GoodCodec, EndsWithNewline;
    var bytes := EncodeAll(c, rs) + rest;
    var terminated := EndsWithNewline(bytes);
    LogIsUtf8(c, rs, rest);
    ParseAfterLog(c, rs, rest, 1, terminated, Parse(c, NonBlank(Lines(rest), 1 + |rs|), terminated));
    if rest == [] {
      NoLines(c, 1 + |rs|, terminated);
      NoLines(c, 1 + |rs|, EndsWithNewline(rest));
    } else {
      EndsAsRest(EncodeAll(c, rs), rest);
    }
  }

  /** Reopening a cleanly written log gives back its records. */
  lemma ReadBack<T(!new)>(c: Codec<T>, rs: seq<T>)
    requires GoodCodec(c)
    ensures Read(c, EncodeAll(c, rs)) == Ok(rs)
  {
    ReadAfterLog(c, rs, []);
    assert EncodeAll(c, rs) + [] == EncodeAll(c, rs) && rs + [] == rs;
  }

  /** Parsing a file tail that is one unterminated line. */
  lemma ParseFragment<T(!new)>(c: Codec<T>, r: T, k: nat, number: nat)
    requires GoodCodec(c) && k <= |c.encode(r)|
    ensures Parse(c, NonBlank(Lines(c.encode(r)[..k]), number), EndsWithNewline(c.encode(r)[..k]))
         == Ok(if k == |c.encode(r)| then [r] else [])
  {
    var body := c.encode(r);
    assert IsEncoding(body);
    var tail := body[..k];
    if tail != [] {
      assert !EndsWithNewline(tail) && !Blank(tail);
      LinesOfTail(tail);
      NonBlankCons(tail, [], number);
      assert [tail] + [] == [tail];
      if k == |body| {
        assert tail == body && [r] + [] == [r];
        ParseCons(c, NumberedLine(number, tail), [], false, r);
      }
    }
  }

  /** Append is all-or-nothing at every crash byte, with one exception: the write of `r` cut after `k` bytes
      reopens to the old records, or to those and `r` once the body is whole, exactly when the cut does not
      split a character; a cut inside a character makes the file unopenable. */
  lemma CutAppend<T(!new)>(c: Codec<T>, rs: seq<T>, r: T, k: nat)
    requires GoodCodec(c) && k <= |Line(c, r)|
    ensures Read(c, EncodeAll(c, rs) + Line(c, r)[..k])
         == if k < |Line(c, r)| && IsContinuation(Line(c, r)[k]) then Err(InvalidUtf8)
            else if k < |c.encode(r)| then Ok(rs)
            else Ok(rs + [r])
  {
    var body, line := c.encode(r), Line(c, r);
    LineIsUtf8(c, r);
    Utf8Cut(line, k);
    if k == |line| {
      EncodeAllAppend(c, rs, r);
      assert line[..k] == line;
      ReadBack(c, rs + [r]);
    } else {
      assert line[..k] == body[..k];
      ReadAfterLog(c, rs, body[..k]);
      ParseFragment(c, r, k, 1 + |rs|);
      assert rs + [] == rs;
    }
  }

  /** A recovered tail is dropped from memory only. After the reopening that `CutAppend` describes, one more
      append keeps file and memory in agreement exactly when the file was empty or ended with a newline;
      otherwise the next open fails. */
  lemma AppendAfterRecovery<T(!new)>(c: Codec<T>, rs: seq<T>, r: T, k: nat, s: T)
    requires GoodCodec(c) && k <= |Line(c, r)|
    requires Read(c, EncodeAll(c, rs) + Line(c, r)[..k]).Ok?
    ensures
      var file := EncodeAll(c, rs) + Line(c, r)[..k];
      var reopened := Read(c, file + Line(c, s));
      && (reopened == Ok(Read(c, file).value + [s]) <==> file == [] || EndsWithNewline(file))
      && (reopened.Ok? <==> file == [] || EndsWithNewline(file))
  {
    var body, line := c.encode(r), Line(c, r);
    var file := EncodeAll(c, rs) + line[..k];
    CutAppend(c, rs, r, k);
    assert IsEncoding(body) && IsEncoding(c.encode(s));
    if k == 0 {
      LogEndsWithNewline(c, rs);
      assert file == EncodeAll(c, rs);
      EncodeAllAppend(c, rs, s);
      ReadBack(c, rs + [s]);
    } else if k == |line| {
      assert line[..k] == line;
      EncodeAllAppend(c, rs, r);
      LogEndsWithNewline(c, rs + [r]);
      EncodeAllAppend(c, rs + [r], s);
      ReadBack(c, rs + [r] + [s]);
    } else {
      assert line[..k] == body[..k];
      assert file[|file| - 1] == body[k - 1];
      assert file + Line(c, s) == EncodeAll(c, rs) + (body[..k] + Line(c, s));
      FusedTail(c, rs, r, k, s);
    }
  }

  /** A torn or unterminated body with another record written straight after it never opens. */
  lemma FusedTail<T(!new)>(c: Codec<T>, rs: seq<T>, r: T, k: nat, s: T)
    requires GoodCodec(c) && 0 < k <= |c.encode(r)|
    ensures Read(c, EncodeAll(c, rs) + (c.encode(r)[..k] + Line(c, s))).Err?
  {
    var fused := c.encode(r)[..k] + c.encode(s);
    assert IsEncoding(c.encode(r)) && IsEncoding(c.encode(s));
    assert c.encode(r)[..k] + Line(c, s) == fused + [NEWLINE];
    ReadAfterLog(c, rs, fused + [NEWLINE]);
    LinesOfTerminated(fused, []);
    assert fused + [NEWLINE] + [] == fused + [NEWLINE];
    assert !Blank(fused) && StripReturn(fused) == fused;
    NonBlankCons(fused, [], 1 + |rs|);
  }

  lemma {:induction false} BlankIsUtf8(w: seq<byte>)
    requires Blank(w)
    ensures ValidUtf8(w)
  {
    if w != [] {
      assert SpaceLength(w) == CharLength(w);
      BlankIsUtf8(w[SpaceLength(w)..]);
    }
  }

  /** A malformed newline-terminated line after a clean log fails the open exactly when nothing, not even
      unterminated white space, follows it. */
  lemma MalformedTerminatedLine<T(!new)>(c: Codec<T>, rs: seq<T>, bad: seq<byte>, space: seq<byte>)
    requires GoodCodec(c)
    requires ValidUtf8(bad) && NoNewline(bad) && !Blank(StripReturn(bad)) && c.decode(StripReturn(bad)).None?
    requires Blank(space) && NoNewline(space)
    ensures Read(c, EncodeAll(c, rs) + (bad + [NEWLINE] + space))
         == if space == [] then Err(BadLine(1 + |rs|)) else Ok(rs)
  {
    hide ValidUtf8, Lines, NonBlank, EncodeAll, GoodCodec, Blank, Parse;
    var rest := bad + [NEWLINE] + space;
    var line := NumberedLine(1 + |rs|, StripReturn(bad));
    ReadAfterLog(c, rs, rest);
    TerminatedLineIsUtf8(bad, space);
    assert 10 !in bad;
    LinesOfTerminated(bad, space);
    NonBlankCons(StripReturn(bad), Lines(space), 1 + |rs|);
    BlankTail(space, 2 + |rs|);
    assert NonBlank(Lines(rest), 1 + |rs|) == [line] + [] == [line];
    assert rest[|rest| - 1] == (if space == [] then NEWLINE else space[|space| - 1]);
    ParseBad(c, line, space == []);
    assert rs + [] == rs;
  }

  lemma ParseBad<T>(c: Codec<T>, line: NumberedLine, terminated: bool)
    requires c.decode(line.text).None?
    ensures Parse(c, [line], terminated) == if terminated then Err(BadLine(line.number)) else Ok([])
  {
  }

  lemma TerminatedLineIsUtf8(line: seq<byte>, space: seq<byte>)
    requires ValidUtf8(line) && Blank(space)
    ensures ValidUtf8(line + [NEWLINE] + space)
  {
    BlankIsUtf8(space);
    Utf8Concat(line, [NEWLINE]);
    Utf8Concat(line + [NEWLINE], space);
  }

  lemma BlankTail(space: seq<byte>, number: nat)
    requires Blank(space) && NoNewline(space)
    ensures NonBlank(Lines(space), number) == []
  {
    if space != [] {
      LinesOfTail(space);
      NonBlankCons(space, [], number);
      assert [space] + [] == [space];
    }
  }

  // ------------------------------------------------------------------ the journal's codec

  const QUOTE: byte := 0x22

  function IdBytes(id: EventId): (b: seq<byte>)
    ensures |b| == |id| && forall i :: 0 <= i < |id| ==> b[i] == id[i] as int
  {
    seq(|id|, i requires 0 <= i < |id| => id[i] as int)
  }

  function IdText(b: seq<byte>): (s: string)
    ensures |s| == |b| && forall i :: 0 <= i < |b| ==> s[i] == b[i] as char
  {
    seq(|b|, i requires 0 <= i < |b| => b[i] as char)
  }

  function EncodeId(id: EventId): (b: seq<byte>)
    ensures |b| == |id| + 2 && b[0] == b[|b| - 1] == QUOTE
    ensures forall i :: 0 < i < |b| - 1 ==> b[i] == id[i - 1] as int && IsIdChar(id[i - 1])
  {
    [QUOTE] + IdBytes(id) + [QUOTE]
  }

  function DecodeId(b: seq<byte>): Option<EventId> {
    if |b| < 2 || b[0] != QUOTE || b[|b| - 1] != QUOTE then None
    else
      var text := IdText(b[1..|b| - 1]);
      if forall i :: 0 <= i < |text| ==> IsIdChar(text[i]) then Some(text) else None
  }

  /** Delivered ids are written as quoted text. */
  const IdCodec: Codec<EventId> := Codec(EncodeId, DecodeId)

  lemma {:induction false} AsciiIsUtf8(b: seq<byte>)
    requires forall i :: 0 <= i < |b| ==> b[i] < 0x80
    ensures ValidUtf8(b)
  {
    if b != [] { AsciiIsUtf8(b[1..]); }
  }

  lemma IdRoundTrip(r: EventId)
    ensures IsEncoding(IdCodec.encode(r)) && IdCodec.decode(IdCodec.encode(r)) == Some(r)
  {
    var b := EncodeId(r);
    AsciiIsUtf8(b);
    assert IdText(b[1..|b| - 1]) == r;
  }

  lemma IdPrefix(r: EventId, k: nat)
    requires k < |IdCodec.encode(r)|
    ensures IdCodec.decode(IdCodec.encode(r)[..k]).None?
  {
    var b := IdCodec.encode(r)[..k];
    if k >= 2 {
      assert IsIdChar(r[k - 2]) && b[k - 1] == r[k - 2] as int;
    }
  }

  lemma IdFusion(r: EventId, s: EventId, k: nat)
    requires 0 < k <= |IdCodec.encode(r)|
    ensures IdCodec.decode(IdCodec.encode(r)[..k] + IdCodec.encode(s)).None?
  {
    var b := IdCodec.encode(r)[..k] + IdCodec.encode(s);
    assert b[k] == QUOTE;
    assert IdText(b[1..|b| - 1])[k - 1] == QUOTE as char;
  }

  /** The journal's codec is a good one. */
  lemma IdCodecIsGood()
    ensures GoodCodec(IdCodec)
  {
    forall r: EventId
      ensures IsEncoding(IdCodec.encode(r)) && IdCodec.decode(IdCodec.encode(r)) == Some(r)
    {
      IdRoundTrip(r);
    }
    forall r: EventId, k: nat | k < |IdCodec.encode(r)|
      ensures IdCodec.decode(IdCodec.encode(r)[..k]).None?
    {
      IdPrefix(r, k);
    }
    forall r: EventId, s: EventId, k: nat | 0 < k <= |IdCodec.encode(r)|
      ensures IdCodec.decode(IdCodec.encode(r)[..k] + IdCodec.encode(s)).None?
    {
      IdFusion(r, s, k);
    }
  }
}
