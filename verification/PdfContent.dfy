/** Content streams of ISO 32000-1, sections 7.8.2 and 9.4: the strings a page shows, and where. */
module PdfContent {
  import opened Common
  import opened Utf8
  import opened PdfObjects
  import Strings = PdfStrings

  // ----- The interpreter -----

  datatype Operand = NameOperand(name: string) | NumberOperand(value: int) | TextOperand(text: seq<Byte>)

  /**
   * Between BT and ET or not, the font in force and its size, the leading, where the current line starts, how many
   * strings were shown since it started, and the operands seen since the last operator.
   */
  datatype Pen = Pen(
    inText: bool, font: Option<string>, size: int, leading: int, x: int, y: int, onLine: nat, operands: seq<Operand>)

  const START := Pen(false, None, 0, 0, 0, 0, 0, [])

  /** A string shown: in which font and size, on the line that starts where, after how many strings on that line. */
  datatype Shown = Shown(text: seq<Byte>, font: string, size: int, x: int, y: int, onLine: nat)

  predicate IsText(operands: seq<Operand>) {
    |operands| == 1 && operands[0].TextOperand?
  }

  predicate IsNumber(operands: seq<Operand>) {
    |operands| == 1 && operands[0].NumberOperand?
  }

  predicate IsPoint(operands: seq<Operand>) {
    |operands| == 2 && operands[0].NumberOperand? && operands[1].NumberOperand?
  }

  predicate IsFont(operands: seq<Operand>) {
    |operands| == 2 && operands[0].NameOperand? && operands[1].NumberOperand?
  }

  predicate CanShow(pen: Pen, fonts: set<string>) {
    pen.inText && pen.font.Some? && pen.font.value in fonts && IsText(pen.operands)
  }

  function ShownBy(pen: Pen): Shown
    requires pen.font.Some? && IsText(pen.operands)
  {
    Shown(pen.operands[0].text, pen.font.value, pen.size, pen.x, pen.y, pen.onLine)
  }

  function Hold(pen: Pen, operand: Operand): Pen {
    pen.(operands := pen.operands + [operand])
  }

  /** An operator whose operands do not fit has no effect. */
  function Operate(pen: Pen, word: string): Pen {
    var ops := pen.operands;
    if word == "BT" then pen.(inText := true, x := 0, y := 0, onLine := 0)
    else if word == "ET" then pen.(inText := false)
    else if word == "Tf" && IsFont(ops) then pen.(font := Some(ops[0].name), size := ops[1].value)
    else if word == "TL" && IsNumber(ops) then pen.(leading := ops[0].value)
    else if word == "Td" && IsPoint(ops) then pen.(x := pen.x + ops[0].value, y := pen.y + ops[1].value, onLine := 0)
    else if word == "T*" then pen.(y := pen.y - pen.leading, onLine := 0)
    else if word == "Tj" then pen.(onLine := pen.onLine + 1)
    else pen
  }

  function Execute(pen: Pen, token: Token): Pen {
    match token
    case TName(name) => Hold(pen, NameOperand(name))
    case TNumber(n) => Hold(pen, NumberOperand(n))
    case TWord(word) => Operate(pen, word).(operands := [])
    case _ => pen
  }

  function Before(shown: Shown, others: Option<seq<Shown>>): Option<seq<Shown>> {
    if others.None? then None else Some([shown] + others.value)
  }

  /** The strings shown, in order; None when a string is shown outside a text object or in no known font. */
  function Show(bs: seq<Byte>, pen: Pen, fonts: set<string>): Option<seq<Shown>>
    decreases |bs|
  {
    var t := SkipSpace(bs);
    if |t| == 0 then if pen.inText then None else Some([])
    else if t[0] == Strings.OPEN then
      match Strings.ReadLiteral(t)
      case None => None
      case Some(literal) => Show(literal.rest, Hold(pen, TextOperand(literal.text)), fonts)
    else
      match TokenAt(t)
      case None => None
      case Some(Lexed(token, rest)) =>
        if token != TWord("Tj") then Show(rest, Execute(pen, token), fonts)
        else if CanShow(pen, fonts) then Before(ShownBy(pen), Show(rest, Execute(pen, token), fonts))
        else None
  }

  // ----- Tokens are executed -----

  lemma TokenIsExecuted(bs: seq<Byte>, pen: Pen, fonts: set<string>)
    requires NextToken(bs).Some?
    ensures var next := NextToken(bs).value;
            var more := Show(next.rest, Execute(pen, next.token), fonts);
            Show(bs, pen, fonts) ==
              if next.token != TWord("Tj") then more
              else if CanShow(pen, fonts) then Before(ShownBy(pen), more) else None
  {
  }

  lemma SpaceShowsNothing(bs: seq<Byte>, pen: Pen, fonts: set<string>)
    ensures Show(Encode(" ") + bs, pen, fonts) == Show(bs, pen, fonts)
  {
    Front(" ", 32, bs);
  }

  lemma LiteralIsHeld(s: string, rest: seq<Byte>, pen: Pen, fonts: set<string>)
    ensures Show(Encode("(" + Strings.EscapePdfString(s) + ")") + rest, pen, fonts)
            == Show(rest, Hold(pen, TextOperand(Strings.NormalizeEol(Encode(s), false))), fonts)
  {
    Strings.LiteralIsRead(s, rest);
    var bs := Encode("(" + Strings.EscapePdfString(s) + ")") + rest;
    assert bs[0] == Strings.OPEN && SkipSpace(bs) == bs;
  }

  function TokenText(t: Token): string {
    match t
    case TName(name) => "/" + name
    case TNumber(n) => PrintNumber(n)
    case TWord(word) => word
    case TOpenDict => "<<"
    case TCloseDict => ">>"
    case TOpenArray => "["
    case TCloseArray => "]"
  }

  predicate IsPlain(t: Token) {
    match t
    case TName(name) => RegularText(name)
    case TNumber(n) => n >= 0
    case TWord(word) => IsWord(word)
    case _ => false
  }

  /** Tokens with a space before each. */
  function Spaced(ts: seq<Token>): string {
    if |ts| == 0 then "" else " " + (TokenText(ts[0]) + Spaced(ts[1..]))
  }

  function ExecuteAll(pen: Pen, ts: seq<Token>): Pen
    decreases |ts|
  {
    if |ts| == 0 then pen else ExecuteAll(Execute(pen, ts[0]), ts[1..])
  }

  lemma PlainIsRead(t: Token, rest: seq<Byte>)
    requires IsPlain(t) && Stops(rest)
    ensures NextToken(Encode(TokenText(t)) + rest) == Some(Lexed(t, rest))
  {
    match t
    case TName(name) =>
      SplitBytes("/", name, rest);
      NameIsRead(name, rest);
    case TNumber(n) => NumberIsRead(n, rest);
    case TWord(word) => WordIsRead(word, rest);
  }

  lemma {:induction false} SpacedIsExecuted(ts: seq<Token>, rest: seq<Byte>, pen: Pen, fonts: set<string>)
    requires (forall i :: 0 <= i < |ts| ==> IsPlain(ts[i]) && ts[i] != TWord("Tj")) && Stops(rest)
    ensures Show(Encode(Spaced(ts)) + rest, pen, fonts) == Show(rest, ExecuteAll(pen, ts), fonts)
    ensures Stops(Encode(Spaced(ts)) + rest)
    decreases |ts|
  {
    if |ts| == 0 {
      assert Encode(Spaced(ts)) + rest == rest;
    } else {
      var text, more := TokenText(ts[0]), Encode(Spaced(ts[1..])) + rest;
      SpacedIsExecuted(ts[1..], rest, Execute(pen, ts[0]), fonts);
      SplitBytes(" ", text + Spaced(ts[1..]), rest);
      SplitBytes(text, Spaced(ts[1..]), rest);
      SpaceShowsNothing(Encode(text) + more, pen, fonts);
      PlainIsRead(ts[0], more);
      TokenIsExecuted(Encode(text) + more, pen, fonts);
      Front(" ", 32, Encode(text) + more);
    }
  }
}
