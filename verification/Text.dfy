/** Byte-level text as the JSONL reader sees it: UTF-8 validity, white space, and lines. */
module Text {
  import opened Base

  const NEWLINE: byte := 10
  const CARRIAGE_RETURN: byte := 13

  predicate IsContinuation(b: byte) {
    0x80 <= b < 0xC0
  }

  /** Bytes in the well-formed character at the front of `s` (Unicode, table 3-7); 0 when there is none. */
  function CharLength(s: seq<byte>): (n: nat)
    ensures n <= |s| && n <= 4
  {
    if s == [] then 0
    else
      var b := s[0];
      if b < 0x80 then 1
      else if 0xC2 <= b <= 0xDF then
        if 2 <= |s| && IsContinuation(s[1]) then 2 else 0
      else if 0xE0 <= b <= 0xEF then
        if 3 <= |s| && IsContinuation(s[1]) && IsContinuation(s[2])
           && (b == 0xE0 ==> 0xA0 <= s[1]) && (b == 0xED ==> s[1] < 0xA0)
        then 3 else 0
      else if 0xF0 <= b <= 0xF4 then
        if 4 <= |s| && IsContinuation(s[1]) && IsContinuation(s[2]) && IsContinuation(s[3])
           && (b == 0xF0 ==> 0x90 <= s[1]) && (b == 0xF4 ==> s[1] < 0x90)
        then 4 else 0
      else 0
  }

  predicate ValidUtf8(s: seq<byte>) {
    s == [] || (CharLength(s) > 0 && ValidUtf8(s[CharLength(s)..]))
  }

  // ------------------------------------------------------------------ what valid means

  /** A Unicode scalar value: any code point but the surrogates. */
  type Scalar = c: int | 0 <= c < 0xD800 || 0xE000 <= c < 0x110000 witness 0

  /** The one to four bytes that stand for a scalar value (RFC 3629, section 3). */
  function EncodeScalar(c: Scalar): seq<byte> {
    if c < 0x80 then [c]
    else if c < 0x800 then [0xC0 + c / 0x40, 0x80 + c % 0x40]
    else if c < 0x10000 then [0xE0 + c / 0x1000, 0x80 + c / 0x40 % 0x40, 0x80 + c % 0x40]
    else [0xF0 + c / 0x40000, 0x80 + c / 0x1000 % 0x40, 0x80 + c / 0x40 % 0x40, 0x80 + c % 0x40]
  }

  function EncodeText(text: seq<Scalar>): seq<byte> {
    if text == [] then [] else EncodeScalar(text[0]) + EncodeText(text[1..])
  }

  lemma CharLengthOfEncoding(c: Scalar, rest: seq<byte>)
    ensures CharLength(EncodeScalar(c) + rest) == |EncodeScalar(c)| > 0
    ensures (EncodeScalar(c) + rest)[|EncodeScalar(c)|..] == rest
  {
  }

  /** The digits of a number to base 0x40. */
  lemma Digits(w: int, x: int, y: int, z: int)
    requires 0 <= x < 0x40 && 0 <= y < 0x40 && 0 <= z < 0x40
    ensures
      var c := w * 0x40000 + x * 0x1000 + y * 0x40 + z;
      c / 0x40000 == w && c / 0x1000 % 0x40 == x && c / 0x40 % 0x40 == y && c % 0x40 == z
  {
    var c := w * 0x40000 + x * 0x1000 + y * 0x40 + z;
    assert c / 0x40 == w * 0x1000 + x * 0x40 + y;
    assert c / 0x1000 == w * 0x40 + x;
  }

  /** The scalar value of the character at the front. */
  lemma DecodeChar(s: seq<byte>) returns (c: Scalar)
    requires CharLength(s) > 0
    ensures EncodeScalar(c) == s[..CharLength(s)]
  {
    var n := CharLength(s);
    if n == 1 {
      c := s[0];
    } else if n == 2 {
      var y, z := s[0] as int - 0xC0, s[1] as int - 0x80;
      Digits(0, 0, y, z);
      c := y * 0x40 + z;
    } else if n == 3 {
      var x, y, z := s[0] as int - 0xE0, s[1] as int - 0x80, s[2] as int - 0x80;
      Digits(0, x, y, z);
      c := x * 0x1000 + y * 0x40 + z;
    } else {
      c := DecodeFour(s);
    }
  }

  lemma DecodeFour(s: seq<byte>) returns (c: Scalar)
    requires CharLength(s) == 4
    ensures EncodeScalar(c) == s[..4]
  {
    var w, x, y, z := s[0] as int - 0xF0, s[1] as int - 0x80, s[2] as int - 0x80, s[3] as int - 0x80;
    Digits(w, x, y, z);
    c := w * 0x40000 + x * 0x1000 + y * 0x40 + z;
  }

  lemma {:induction false} ValidIsEncoded(s: seq<byte>) returns (text: seq<Scalar>)
    requires ValidUtf8(s)
    ensures EncodeText(text) == s
  {
    hide CharLength, EncodeScalar;
    text := [];
    if s != [] {
      var n := CharLength(s);
      var c := DecodeChar(s);
      var rest := ValidIsEncoded(s[n..]);
      text := [c] + rest;
      assert text[1..] == rest && s == s[..n] + s[n..];
    }
  }

  /** Bytes are valid UTF-8 if and only if they are the encoding of some sequence of scalar values. */
  lemma ValidUtf8Iff(s: seq<byte>)
    ensures ValidUtf8(s) <==> exists text :: EncodeText(text) == s
  {
    if ValidUtf8(s) {
      var text := ValidIsEncoded(s);
    }
    if exists text :: EncodeText(text) == s {
      var text :| EncodeText(text) == s;
      hide CharLength, EncodeScalar;
      var i := |text|;
      while i > 0
        invariant 0 <= i <= |text| && ValidUtf8(EncodeText(text[i..]))
      {
        i := i - 1;
        assert text[i..][1..] == text[i + 1..];
        CharLengthOfEncoding(text[i], EncodeText(text[i + 1..]));
      }
      assert text[0..] == text;
    }
  }

  // ------------------------------------------------------------------ concatenations and cuts

  lemma {:induction false} Utf8Concat(a: seq<byte>, b: seq<byte>)
    requires ValidUtf8(a)
    ensures ValidUtf8(a + b) <==> ValidUtf8(b)
  {
    if a == [] {
      assert a + b == b;
    } else {
      var n := CharLength(a);
      assert CharLength(a + b) == n;
      assert (a + b)[n..] == a[n..] + b;
      Utf8Concat(a[n..], b);
    }
  }

  /** A cut of valid UTF-8 is valid exactly when it does not fall in front of a continuation byte. */
  lemma {:induction false} Utf8Cut(s: seq<byte>, k: nat)
    requires ValidUtf8(s) && k <= |s|
    ensures ValidUtf8(s[..k]) <==> k == |s| || !IsContinuation(s[k])
  {
    if k > 0 {
      var n := CharLength(s);
      if k < n {
        assert CharLength(s[..k]) == 0;
      } else {
        assert CharLength(s[..k]) == n;
        assert s[..k][n..] == s[n..][..k - n];
        Utf8Cut(s[n..], k - n);
      }
    } else if s != [] {
      assert !IsContinuation(s[0]);
    }
  }

  /** Bytes of the white-space character (Unicode `White_Space`) at the front of `s`; 0 when there is none. */
  function SpaceLength(s: seq<byte>): (n: nat)
    ensures n <= |s|
  {
    if s == [] then 0
    else if 9 <= s[0] <= 13 || s[0] == 0x20 then 1
    else if |s| >= 2 && s[0] == 0xC2 && (s[1] == 0x85 || s[1] == 0xA0) then 2
    else if |s| >= 3 && s[0] == 0xE1 && s[1] == 0x9A && s[2] == 0x80 then 3
    else if |s| >= 3 && s[0] == 0xE2 && s[1] == 0x80
            && (0x80 <= s[2] <= 0x8A || s[2] == 0xA8 || s[2] == 0xA9 || s[2] == 0xAF) then 3
    else if |s| >= 3 && s[0] == 0xE2 && s[1] == 0x81 && s[2] == 0x9F then 3
    else if |s| >= 3 && s[0] == 0xE3 && s[1] == 0x80 && s[2] == 0x80 then 3
    else 0
  }

  /** Nothing but white space: what a line trims to when it trims to nothing. */
  predicate Blank(s: seq<byte>) {
    s == [] || (SpaceLength(s) > 0 && Blank(s[SpaceLength(s)..]))
  }

  /** Unicode `White_Space`. */
  predicate IsWhiteSpace(c: Scalar) {
    || 9 <= c <= 13 || c == 0x20 || c == 0x85 || c == 0xA0 || c == 0x1680 || 0x2000 <= c <= 0x200A
    || c == 0x2028 || c == 0x2029 || c == 0x202F || c == 0x205F || c == 0x3000
  }

  lemma SpaceLengthOfEncoding(c: Scalar, rest: seq<byte>)
    requires IsWhiteSpace(c)
    ensures SpaceLength(EncodeScalar(c) + rest) == |EncodeScalar(c)|
  {
  }

  lemma DecodeSpace(s: seq<byte>) returns (c: Scalar)
    requires SpaceLength(s) > 0
    ensures IsWhiteSpace(c) && EncodeScalar(c) == s[..SpaceLength(s)]
  {
    assert CharLength(s) == SpaceLength(s);
    c := DecodeChar(s);
  }

  lemma {:induction false} EncodedIsBlank(text: seq<Scalar>)
    requires forall i :: 0 <= i < |text| ==> IsWhiteSpace(text[i])
    ensures Blank(EncodeText(text))
  {
    hide CharLength, SpaceLength, EncodeScalar, IsWhiteSpace;
    if text != [] {
      EncodedIsBlank(text[1..]);
      SpaceLengthOfEncoding(text[0], EncodeText(text[1..]));
      CharLengthOfEncoding(text[0], EncodeText(text[1..]));
    }
  }

  lemma {:induction false} BlankIsEncoded(s: seq<byte>) returns (text: seq<Scalar>)
    requires Blank(s)
    ensures EncodeText(text) == s && forall i :: 0 <= i < |text| ==> IsWhiteSpace(text[i])
  {
    hide SpaceLength, EncodeScalar, IsWhiteSpace;
    text := [];
    if s != [] {
      var n := SpaceLength(s);
      var c := DecodeSpace(s);
      var rest := BlankIsEncoded(s[n..]);
      text := [c] + rest;
      assert text[1..] == rest && s == s[..n] + s[n..];
    }
  }

  /** A line is blank if and only if it is the encoding of white space alone. */
  lemma BlankIff(s: seq<byte>)
    ensures Blank(s)
       <==> exists text :: EncodeText(text) == s && forall i :: 0 <= i < |text| ==> IsWhiteSpace(text[i])
  {
    if Blank(s) {
      var text := BlankIsEncoded(s);
    }
    if exists text :: EncodeText(text) == s && forall i :: 0 <= i < |text| ==> IsWhiteSpace(text[i]) {
      var text :| EncodeText(text) == s && forall i :: 0 <= i < |text| ==> IsWhiteSpace(text[i]);
      EncodedIsBlank(text);
    }
  }

  predicate NoNewline(s: seq<byte>) {
    forall i :: 0 <= i < |s| ==> s[i] != NEWLINE
  }

  predicate EndsWithNewline(s: seq<byte>) {
    s != [] && s[|s| - 1] == NEWLINE
  }

  /** Index of the first newline, or the length. */
  function FirstNewline(s: seq<byte>): (n: nat)
    ensures n <= |s|
    ensures forall i :: 0 <= i < n ==> s[i] != NEWLINE
    ensures n < |s| ==> s[n] == NEWLINE
  {
    if s == [] || s[0] == NEWLINE then 0 else 1 + FirstNewline(s[1..])
  }

  function StripReturn(line: seq<byte>): seq<byte> {
    if line != [] && line[|line| - 1] == CARRIAGE_RETURN then line[..|line| - 1] else line
  }

  /** The lines of a text: split at newlines, a return in front of the newline dropped, none after the last. */
  function Lines(s: seq<byte>): (r: seq<seq<byte>>)
    decreases |s|
  {
    if s == [] then []
    else
      var n := FirstNewline(s);
      if n == |s| then [s] else [StripReturn(s[..n])] + Lines(s[n + 1..])
  }

  /** A line up to its newline (byte 10) loses one return (byte 13) at its end; the rest is split on its own. */
  lemma LinesOfTerminated(body: seq<byte>, rest: seq<byte>)
    requires 10 !in body
    ensures Lines(body + [10] + rest)
         == [if body != [] && body[|body| - 1] == 13 then body[..|body| - 1] else body] + Lines(rest)
  {
    var s := body + [10] + rest;
    var n := FirstNewline(s);
    assert s[|body|] == 10 && forall i :: 0 <= i < |body| ==> s[i] == body[i];
    assert s[..n] == body && s[n + 1..] == rest;
  }

  /** What follows the last newline is a line as it is, if it is anything. */
  lemma LinesOfTail(tail: seq<byte>)
    requires 10 !in tail
    ensures Lines(tail) == if tail == [] then [] else [tail]
  {
    assert FirstNewline(tail) == |tail|;
  }
}
