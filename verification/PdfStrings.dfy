/** Literal strings of ISO 32000-1, section 7.3.4.2: a reader over bytes, and the escape the invoice writer uses. */
module PdfStrings {
  import opened Common
  import opened Utf8

  const LF: Byte := 10
  const CR: Byte := 13
  const OPEN: Byte := 40
  const CLOSE: Byte := 41
  const BACKSLASH: Byte := 92

  // ----- The reader -----

  /**
   * Past the string, or inside one at a nesting depth; just after an unescaped or an escaped CR, whose LF
   * belongs to it; after a backslash; or in an octal escape with the digits seen so far.
   */
  datatype Mode =
    | Closed
    | Inside(depth: nat)
    | AfterCr(depth: nat)
    | Escaped(depth: nat)
    | AfterEscapedCr(depth: nat)
    | Octal(depth: nat, value: nat, digits: nat)

  datatype Reader = Reader(mode: Mode, text: seq<Byte>) {
    function Emit(b: Byte, depth: nat): Reader {
      Reader(Inside(depth), text + [b])
    }

    /** A byte that is not part of an escape. */
    function ReadPlain(b: Byte, depth: nat): Reader {
      if b == BACKSLASH then this.(mode := Escaped(depth))
      else if b == OPEN then Emit(b, depth + 1)
      else if b == CLOSE then
        if depth == 0 then this.(mode := Closed) else Emit(b, depth - 1)
      else if b == CR then Reader(AfterCr(depth), text + [LF])
      else Emit(b, depth)
    }

    /** The byte after a backslash. */
    function ReadEscaped(b: Byte, depth: nat): Reader {
      if b == 110 then Emit(LF, depth)
      else if b == 114 then Emit(CR, depth)
      else if b == 116 then Emit(9, depth)
      else if b == 98 then Emit(8, depth)
      else if b == 102 then Emit(12, depth)
      else if b == OPEN || b == CLOSE || b == BACKSLASH then Emit(b, depth)
      else if b == LF then this.(mode := Inside(depth))
      else if b == CR then this.(mode := AfterEscapedCr(depth))
      else if 48 <= b <= 55 then this.(mode := Octal(depth, b - 48, 1))
      else ReadPlain(b, depth)
    }

    function Read(b: Byte): Reader {
      match mode
      case Closed => this
      case Inside(depth) => ReadPlain(b, depth)
      case AfterCr(depth) => if b == LF then this.(mode := Inside(depth)) else ReadPlain(b, depth)
      case Escaped(depth) => ReadEscaped(b, depth)
      case AfterEscapedCr(depth) => if b == LF then this.(mode := Inside(depth)) else ReadPlain(b, depth)
      case Octal(depth, value, digits) =>
        if 48 <= b <= 55 && digits < 3 then this.(mode := Octal(depth, value * 8 + b - 48, digits + 1))
        else Emit(value % 256, depth).ReadPlain(b, depth)
    }

    function ReadUntilClosed(bs: seq<Byte>): (r: Option<Literal>)
      ensures r.Some? ==> |r.value.rest| <= |bs|
      decreases |bs|
    {
      if mode == Closed then Some(Literal(text, bs))
      else if |bs| == 0 then None
      else Read(bs[0]).ReadUntilClosed(bs[1..])
    }
  }

  /** A literal string and what follows it. */
  datatype Literal = Literal(text: seq<Byte>, rest: seq<Byte>)

  /** The literal string that starts here. */
  function ReadLiteral(bs: seq<Byte>): (r: Option<Literal>)
    ensures r.Some? ==> |r.value.rest| < |bs|
  {
    if |bs| > 0 && bs[0] == OPEN then Reader(Inside(0), []).ReadUntilClosed(bs[1..]) else None
  }

  // ----- The escape -----

  function ReplaceChar(a: char, c: char, replacement: string): string {
    if a == c then replacement else [a]
  }

  /** `value.replace(/c/g, by)`. */
  function ReplaceAll(s: string, c: char, replacement: string): string {
    if s == "" then "" else ReplaceChar(s[0], c, replacement) + ReplaceAll(s[1..], c, replacement)
  }

  function EscapePdfString(value: string): string {
    ReplaceAll(ReplaceAll(ReplaceAll(value, '\\', "\\\\"), '(', "\\("), ')', "\\)")
  }

  /** The same in one pass. */
  function Escape(s: string): string {
    if s == "" then ""
    else (if s[0] == '\\' || s[0] == '(' || s[0] == ')' then ['\\', s[0]] else [s[0]]) + Escape(s[1..])
  }

  lemma {:induction false} ReplaceConcat(s: string, t: string, c: char, replacement: string)
    ensures ReplaceAll(s + t, c, replacement) == ReplaceAll(s, c, replacement) + ReplaceAll(t, c, replacement)
    decreases |s|
  {
    if s == "" {
      assert s + t == t;
    } else {
      ReplaceConcat(s[1..], t, c, replacement);
      assert (s + t)[0] == s[0] && (s + t)[1..] == s[1..] + t;
      AppendIsAssociative(ReplaceChar(s[0], c, replacement), ReplaceAll(s[1..], c, replacement), ReplaceAll(t, c, replacement));
    }
  }

  lemma ReplaceOne(a: char, c: char, replacement: string)
    ensures ReplaceAll([a], c, replacement) == if a == c then replacement else [a]
  {
  }

  lemma ReplaceTwo(a: char, b: char, c: char, replacement: string)
    requires a != c
    ensures ReplaceAll([a, b], c, replacement) == [a] + if b == c then replacement else [b]
  {
    assert [a, b] == [a] + [b];
    ReplaceConcat([a], [b], c, replacement);
    ReplaceOne(a, c, replacement);
    ReplaceOne(b, c, replacement);
  }

  /** The three replacements do not disturb each other: backslashes first makes them a one-pass escape. */
  lemma {:induction false} EscapeIsOnePass(s: string)
    ensures EscapePdfString(s) == Escape(s)
    decreases |s|
  {
    if s != "" {
      EscapeIsOnePass(s[1..]);
      var c := s[0];
      var head := ReplaceAll(s[..1], '\\', "\\\\");
      assert s == s[..1] + s[1..] && s[..1] == [c];
      var t1 := ReplaceAll(s[1..], '\\', "\\\\");
      ReplaceConcat(s[..1], s[1..], '\\', "\\\\");
      ReplaceConcat(head, t1, '(', "\\(");
      var head2 := ReplaceAll(head, '(', "\\(");
      ReplaceConcat(head2, ReplaceAll(t1, '(', "\\("), ')', "\\)");
      EscapeHead(c);
    }
  }

  lemma EscapeHead(c: char)
    ensures EscapePdfString([c]) == if c == '\\' || c == '(' || c == ')' then ['\\', c] else [c]
  {
    ReplaceOne(c, '\\', "\\\\");
    if c == '\\' {
      ReplaceTwo('\\', '\\', '(', "\\(");
      ReplaceTwo('\\', '\\', ')', "\\)");
    } else {
      ReplaceOne(c, '(', "\\(");
      if c == '(' {
        ReplaceTwo('\\', '(', ')', "\\)");
      } else {
        ReplaceOne(c, ')', "\\)");
      }
    }
  }

  // ----- Reading an escaped string back -----

  /** What one byte of text reads as. */
  function TextOf(b: Byte, afterCr: bool): seq<Byte> {
    if b == CR then [LF] else if b == LF && afterCr then [] else [b]
  }

  /** A text as it reads: an unescaped CR, or CR LF, is one LF. */
  function NormalizeEol(bs: seq<Byte>, afterCr: bool): seq<Byte> {
    if |bs| == 0 then [] else TextOf(bs[0], afterCr) + NormalizeEol(bs[1..], bs[0] == CR)
  }

  predicate IsInside(m: Mode) {
    m == Inside(0) || m == AfterCr(0)
  }

  predicate IsEscaped(b: Byte) {
    b == BACKSLASH || b == OPEN || b == CLOSE
  }

  function EscapeByte(b: Byte): seq<Byte> {
    if IsEscaped(b) then [BACKSLASH, b] else [b]
  }

  /** The escape seen on the encoded text. */
  function EscapeBytes(bs: seq<Byte>): seq<Byte> {
    if |bs| == 0 then [] else EscapeByte(bs[0]) + EscapeBytes(bs[1..])
  }

  lemma {:induction false} EscapeBytesConcat(a: seq<Byte>, b: seq<Byte>)
    ensures EscapeBytes(a + b) == EscapeBytes(a) + EscapeBytes(b)
    decreases |a|
  {
    if |a| == 0 {
      assert a + b == b;
    } else {
      EscapeBytesConcat(a[1..], b);
      assert (a + b)[0] == a[0] && (a + b)[1..] == a[1..] + b;
      AppendIsAssociative(EscapeByte(a[0]), EscapeBytes(a[1..]), EscapeBytes(b));
    }
  }

  lemma {:induction false} EscapeBytesKeeps(bs: seq<Byte>)
    requires forall i :: 0 <= i < |bs| ==> !IsEscaped(bs[i])
    ensures EscapeBytes(bs) == bs
    decreases |bs|
  {
    if |bs| > 0 {
      EscapeBytesKeeps(bs[1..]);
      assert bs == [bs[0]] + bs[1..];
    }
  }

  lemma EscapeHeadBytes(c: char)
    ensures Encode(Escape([c])) == EscapeBytes(EncodeChar(c))
  {
    assert [c][1..] == "";
    var bs := EncodeChar(c);
    if c == '\\' || c == '(' || c == ')' {
      assert Escape([c]) == ['\\', c];
      EncodeAscii(['\\', c]);
      assert Encode(['\\', c]) == [BACKSLASH, c as int];
      assert bs[1..] == [];
    } else {
      assert Escape([c]) == [c];
      assert Encode([c]) == bs;
      EscapeBytesKeeps(bs);
    }
  }

  lemma {:induction false} EscapeCommutesWithEncode(s: string)
    ensures Encode(Escape(s)) == EscapeBytes(Encode(s))
    decreases |s|
  {
    if s != "" {
      EscapeCommutesWithEncode(s[1..]);
      EscapeHeadBytes(s[0]);
      EscapeBytesConcat(EncodeChar(s[0]), Encode(s[1..]));
      assert [s[0]][1..] == "";
      EncodeConcat(Escape([s[0]]), Escape(s[1..]));
    }
  }

  /** The reader past one byte of text, escaped if need be. */
  function AfterByte(r: Reader, b: Byte): Reader {
    Reader(if b == CR then AfterCr(0) else Inside(0), r.text + TextOf(b, r.mode == AfterCr(0)))
  }

  lemma EscapedByteIsRead(r: Reader, b: Byte, tail: seq<Byte>)
    requires IsInside(r.mode)
    ensures r.ReadUntilClosed(EscapeByte(b) + tail) == AfterByte(r, b).ReadUntilClosed(tail)
  {
    if IsEscaped(b) {
      assert ([BACKSLASH, b] + tail)[1..] == [b] + tail;
    }
    assert ([b] + tail)[1..] == tail;
    assert r.text + [] == r.text;
  }

  /** An escaped text reads back as itself with line ends normalised. */
  lemma {:induction false} EscapedTextIsRead(r: Reader, bs: seq<Byte>, rest: seq<Byte>)
    requires IsInside(r.mode)
    ensures r.ReadUntilClosed(EscapeBytes(bs) + ([CLOSE] + rest))
            == Some(Literal(r.text + NormalizeEol(bs, r.mode == AfterCr(0)), rest))
    decreases |bs|
  {
    if |bs| == 0 {
      assert EscapeBytes(bs) + ([CLOSE] + rest) == [CLOSE] + rest && ([CLOSE] + rest)[1..] == rest;
      assert r.text + [] == r.text;
    } else {
      var after := EscapeBytes(bs[1..]) + ([CLOSE] + rest);
      AppendIsAssociative(EscapeByte(bs[0]), EscapeBytes(bs[1..]), [CLOSE] + rest);
      EscapedByteIsRead(r, bs[0], after);
      EscapedTextIsRead(AfterByte(r, bs[0]), bs[1..], rest);
      AppendIsAssociative(r.text, TextOf(bs[0], r.mode == AfterCr(0)), NormalizeEol(bs[1..], bs[0] == CR));
    }
  }

  /** A text written as `(`, escape, `)` reads back as its bytes with line ends normalised, and nothing more. */
  lemma LiteralIsRead(s: string, rest: seq<Byte>)
    ensures ReadLiteral(Encode("(" + EscapePdfString(s) + ")") + rest)
            == Some(Literal(NormalizeEol(Encode(s), false), rest))
  {
    EscapeIsOnePass(s);
    EscapeCommutesWithEncode(s);
    DelimitedBytes(Escape(s), rest);
    EscapedTextIsRead(Reader(Inside(0), []), Encode(s), rest);
    NothingBefore(NormalizeEol(Encode(s), false));
    var inner := EscapeBytes(Encode(s)) + ([CLOSE] + rest);
    assert ([OPEN] + inner)[1..] == inner;
  }

  lemma NothingBefore(bs: seq<Byte>)
    ensures [] + bs == bs
  {
  }

  lemma DelimitedBytes(text: string, rest: seq<Byte>)
    ensures Encode("(" + text + ")") + rest == [OPEN] + (Encode(text) + ([CLOSE] + rest))
  {
    EncodeAscii("(");
    EncodeAscii(")");
    assert Encode("(") == [OPEN] && Encode(")") == [CLOSE];
    SplitBytes("(" + text, ")", rest);
    SplitBytes("(", text, [CLOSE] + rest);
  }

  // ----- When the text comes back as written -----

  predicate HasCr(s: string) {
    exists i :: 0 <= i < |s| && s[i] == '\r'
  }

  lemma {:induction false} CrBytes(s: string)
    ensures HasCr(s) <==> CR in Encode(s)
    decreases |s|
  {
    if s != "" {
      CrBytes(s[1..]);
      assert s == [s[0]] + s[1..];
      assert CR in EncodeChar(s[0]) <==> s[0] == '\r';
      assert HasCr(s) <==> s[0] == '\r' || HasCr(s[1..]) by {
        assert forall i :: 0 <= i < |s| - 1 ==> s[1..][i] == s[i + 1];
        if HasCr(s) {
          var i :| 0 <= i < |s| && s[i] == '\r';
          assert i > 0 ==> s[1..][i - 1] == '\r';
        }
      }
    }
  }

  lemma {:induction false} NormalizeKeeps(bs: seq<Byte>)
    ensures CR !in NormalizeEol(bs, true) && CR !in NormalizeEol(bs, false)
    ensures CR !in bs ==> NormalizeEol(bs, false) == bs
    decreases |bs|
  {
    if |bs| > 0 {
      NormalizeKeeps(bs[1..]);
      assert bs == [bs[0]] + bs[1..];
    }
  }

  /** The round trip is exact exactly for text without a carriage return. */
  lemma RoundTripIffNoCr(s: string)
    ensures NormalizeEol(Encode(s), false) == Encode(s) <==> !HasCr(s)
  {
    CrBytes(s);
    NormalizeKeeps(Encode(s));
  }
}
