/** Objects of a PDF file: tokens of ISO 32000-1, section 7.2, and a reader of the objects of section 7.3. */
module PdfObjects {
  import opened Common
  import opened Utf8

  // ----- Tokens -----

  predicate IsSpace(b: Byte) {
    b == 0 || b == 9 || b == 10 || b == 12 || b == 13 || b == 32
  }

  predicate IsDelimiter(b: Byte) {
    b == 40 || b == 41 || b == 60 || b == 62 || b == 91 || b == 93 || b == 123 || b == 125 || b == 47 || b == 37
  }

  predicate IsRegular(b: Byte) {
    !IsSpace(b) && !IsDelimiter(b)
  }

  datatype Token =
    | TName(text: string) | TNumber(value: int) | TWord(text: string)
    | TOpenDict | TCloseDict | TOpenArray | TCloseArray

  datatype Lexed = Lexed(token: Token, rest: seq<Byte>)

  function SkipSpace(bs: seq<Byte>): (r: seq<Byte>)
    ensures |r| <= |bs|
  {
    if |bs| > 0 && IsSpace(bs[0]) then SkipSpace(bs[1..]) else bs
  }

  /** The length of the run of regular characters at the start. */
  function RegularRun(bs: seq<Byte>): (n: nat)
    ensures n <= |bs|
  {
    if |bs| > 0 && IsRegular(bs[0]) then 1 + RegularRun(bs[1..]) else 0
  }

  function Chars(bs: seq<Byte>): string {
    seq(|bs|, i requires 0 <= i < |bs| => bs[i] as char)
  }

  function TokenAt(bs: seq<Byte>): (r: Option<Lexed>)
    ensures r.Some? ==> |r.value.rest| < |bs|
  {
    if |bs| == 0 then None
    else if bs[0] == 47 then NameAt(bs[1..])
    else if bs[0] == 91 then Some(Lexed(TOpenArray, bs[1..]))
    else if bs[0] == 93 then Some(Lexed(TCloseArray, bs[1..]))
    else if |bs| > 1 && bs[0] == 60 && bs[1] == 60 then Some(Lexed(TOpenDict, bs[2..]))
    else if |bs| > 1 && bs[0] == 62 && bs[1] == 62 then Some(Lexed(TCloseDict, bs[2..]))
    else if IsRegular(bs[0]) then RunAt(bs)
    else None
  }

  function NameAt(bs: seq<Byte>): (r: Option<Lexed>)
    ensures r.Some? && |r.value.rest| <= |bs|
  {
    Some(Lexed(TName(Chars(bs[..RegularRun(bs)])), bs[RegularRun(bs)..]))
  }

  function RunAt(bs: seq<Byte>): (r: Option<Lexed>)
    requires |bs| > 0 && IsRegular(bs[0])
    ensures r.Some? && |r.value.rest| < |bs|
  {
    var run, rest := bs[..RegularRun(bs)], bs[RegularRun(bs)..];
    Some(Lexed(if AllDigits(run) then TNumber(ParseDecimal(run)) else TWord(Chars(run)), rest))
  }

  function NextToken(bs: seq<Byte>): (r: Option<Lexed>)
    ensures r.Some? ==> |r.value.rest| < |bs|
  {
    TokenAt(SkipSpace(bs))
  }

  /** What follows the word `text`, if that is the next token. */
  function SkipWord(bs: seq<Byte>, text: string): Option<seq<Byte>> {
    match NextToken(bs)
    case Some(Lexed(TWord(word), rest)) => if word == text then Some(rest) else None
    case _ => None
  }

  // ----- Objects -----

  datatype Obj =
    | Name(text: string)
    | Int(value: int)
    | Ref(number: int, generation: int)
    | Arr(items: seq<Obj>)
    | Dict(pairs: seq<Pair>)

  datatype Pair = Pair(key: string, value: Obj)

  datatype Parsed<+T> = Parsed(value: T, rest: seq<Byte>)

  /** A number stands for itself, unless a generation and the word R make it a reference. */
  function NumberOrRef(n: int, bs: seq<Byte>): (r: Parsed<Obj>)
    ensures |r.rest| <= |bs|
  {
    match NextToken(bs)
    case Some(Lexed(TNumber(g), rest)) =>
      var after := SkipWord(rest, "R");
      if after.Some? then Parsed(Ref(n, g), after.value) else Parsed(Int(n), bs)
    case _ => Parsed(Int(n), bs)
  }

  function ParseValue(bs: seq<Byte>): (r: Option<Parsed<Obj>>)
    ensures r.Some? ==> |r.value.rest| < |bs|
    decreases |bs|, 0
  {
    match NextToken(bs)
    case None => None
    case Some(Lexed(token, rest)) =>
      match token
      case TName(text) => Some(Parsed(Name(text), rest))
      case TNumber(n) => Some(NumberOrRef(n, rest))
      case TOpenArray =>
        (match ParseItems(rest)
         case None => None
         case Some(p) => Some(Parsed(Arr(p.value), p.rest)))
      case TOpenDict =>
        (match ParsePairs(rest)
         case None => None
         case Some(p) => Some(Parsed(Dict(p.value), p.rest)))
      case _ => None
  }

  function ParseItems(bs: seq<Byte>): (r: Option<Parsed<seq<Obj>>>)
    ensures r.Some? ==> |r.value.rest| < |bs|
    decreases |bs|, 1
  {
    if NextToken(bs).Some? && NextToken(bs).value.token.TCloseArray? then Some(Parsed([], NextToken(bs).value.rest))
    else
      match ParseValue(bs)
      case None => None
      case Some(first) =>
        match ParseItems(first.rest)
        case None => None
        case Some(others) => Some(Parsed([first.value] + others.value, others.rest))
  }

  function ParsePairs(bs: seq<Byte>): (r: Option<Parsed<seq<Pair>>>)
    ensures r.Some? ==> |r.value.rest| < |bs|
    decreases |bs|, 1
  {
    match NextToken(bs)
    case Some(Lexed(TCloseDict, rest)) => Some(Parsed([], rest))
    case Some(Lexed(TName(key), rest)) => ParsePair(key, rest)
    case _ => None
  }

  function ParsePair(key: string, bs: seq<Byte>): (r: Option<Parsed<seq<Pair>>>)
    ensures r.Some? ==> |r.value.rest| < |bs|
    decreases |bs|, 2
  {
    match ParseValue(bs)
    case None => None
    case Some(v) =>
      match ParsePairs(v.rest)
      case None => None
      case Some(others) => Some(Parsed([Pair(key, v.value)] + others.value, others.rest))
  }

  function Lookup(pairs: seq<Pair>, key: string): Option<Obj> {
    if |pairs| == 0 then None
    else if pairs[0].key == key then Some(pairs[0].value)
    else Lookup(pairs[1..], key)
  }

  /** The value of a key of a dictionary. */
  function Get(o: Obj, key: string): Option<Obj> {
    if o.Dict? then Lookup(o.pairs, key) else None
  }

  // ----- How objects are written -----

  function Print(o: Obj): string
    decreases o
  {
    match o
    case Name(text) => "/" + text
    case Int(n) => PrintNumber(n)
    case Ref(n, g) => PrintNumber(n) + PrintTail(PrintNumber(g), "R")
    case Arr(items) => "[" + PrintItems(items)
    case Dict(pairs) => "<<" + PrintPairs(pairs)
  }

  /** The generation and the word of a reference. */
  function PrintTail(generation: string, word: string): string {
    " " + (generation + (" " + word))
  }

  function PrintNumber(n: int): string {
    Decimal(if n < 0 then 0 else n)
  }

  /** The items, separated by spaces, and the closing bracket. */
  function PrintItems(items: seq<Obj>): string
    decreases items
  {
    if |items| == 0 then "]"
    else Print(items[0]) + ((if |items| > 1 then " " else "") + PrintItems(items[1..]))
  }

  function PrintPairs(pairs: seq<Pair>): string
    decreases pairs
  {
    if |pairs| == 0 then " >>"
    else " /" + (pairs[0].key + (" " + (Print(pairs[0].value) + PrintPairs(pairs[1..]))))
  }

  // ----- Tokens are read -----

  predicate RegularText(s: string) {
    forall i :: 0 <= i < |s| ==> s[i] as int < 0x80 && IsRegular(s[i] as int)
  }

  /** A run of regular characters that is not a number. */
  predicate IsWord(s: string) {
    RegularText(s) && s != "" && !('0' <= s[0] <= '9')
  }

  /** Bytes that cannot be taken for more of a token before them. */
  predicate Stops(bs: seq<Byte>) {
    |bs| > 0 ==> !IsRegular(bs[0])
  }

  lemma {:induction false} RunEnds(run: seq<Byte>, rest: seq<Byte>)
    requires (forall i :: 0 <= i < |run| ==> IsRegular(run[i])) && Stops(rest)
    ensures RegularRun(run + rest) == |run|
    decreases |run|
  {
    if |run| == 0 {
      assert run + rest == rest;
    } else {
      RunEnds(run[1..], rest);
      assert (run + rest)[1..] == run[1..] + rest;
    }
  }

  lemma RegularBytes(s: string)
    requires RegularText(s)
    ensures |Encode(s)| == |s| && Chars(Encode(s)) == s
    ensures forall i :: 0 <= i < |s| ==> Encode(s)[i] == s[i] as int && IsRegular(Encode(s)[i])
  {
    EncodeAscii(s);
  }

  lemma SplitRun(run: seq<Byte>, rest: seq<Byte>)
    requires (forall i :: 0 <= i < |run| ==> IsRegular(run[i])) && Stops(rest)
    ensures (run + rest)[..RegularRun(run + rest)] == run && (run + rest)[RegularRun(run + rest)..] == rest
  {
    RunEnds(run, rest);
  }

  /** One character of punctuation in front of more bytes. */
  lemma Front(c: string, b: Byte, rest: seq<Byte>)
    requires |c| == 1 && b < 0x80 && c[0] as int == b
    ensures Encode(c) + rest == [b] + rest && ([b] + rest)[1..] == rest
  {
    EncodeAscii(c);
    assert Encode(c) == [b];
  }

  lemma SpaceIsSkipped(rest: seq<Byte>)
    ensures NextToken(Encode(" ") + rest) == NextToken(rest)
  {
    Front(" ", 32, rest);
  }

  lemma LineEndIsSkipped(rest: seq<Byte>)
    ensures NextToken(Encode("\n") + rest) == NextToken(rest)
    ensures ParseValue(Encode("\n") + rest) == ParseValue(rest)
    ensures Stops(Encode("\n") + rest)
  {
    Front("\n", 10, rest);
  }

  lemma NameIsRead(text: string, rest: seq<Byte>)
    requires RegularText(text) && Stops(rest)
    ensures NextToken(Encode("/") + (Encode(text) + rest)) == Some(Lexed(TName(text), rest))
  {
    Front("/", 47, Encode(text) + rest);
    SlashStartsName(Encode(text) + rest);
    RegularBytes(text);
    SplitRun(Encode(text), rest);
  }

  lemma SlashStartsName(bs: seq<Byte>)
    ensures NextToken([47] + bs) == NameAt(bs)
  {
    assert ([47] + bs)[0] == 47 && ([47] + bs)[1..] == bs;
  }

  lemma RunIsRead(run: seq<Byte>, rest: seq<Byte>)
    requires |run| > 0 && (forall i :: 0 <= i < |run| ==> IsRegular(run[i])) && Stops(rest)
    ensures NextToken(run + rest)
            == Some(Lexed(if AllDigits(run) then TNumber(ParseDecimal(run)) else TWord(Chars(run)), rest))
  {
    SplitRun(run, rest);
    assert (run + rest)[0] == run[0];
  }

  lemma NumberIsRead(n: nat, rest: seq<Byte>)
    requires Stops(rest)
    ensures NextToken(Encode(Decimal(n)) + rest) == Some(Lexed(TNumber(n), rest))
  {
    DecimalRoundTrip(n);
    RunIsRead(Encode(Decimal(n)), rest);
  }

  lemma WordIsRead(word: string, rest: seq<Byte>)
    requires IsWord(word) && Stops(rest)
    ensures NextToken(Encode(word) + rest) == Some(Lexed(TWord(word), rest))
    ensures SkipWord(Encode(word) + rest, word) == Some(rest)
  {
    RegularBytes(word);
    assert !IsDigitByte(Encode(word)[0]);
    RunIsRead(Encode(word), rest);
  }

  lemma BracketIsRead(bracket: string, token: Token, rest: seq<Byte>)
    requires (bracket, token) in {("[", TOpenArray), ("]", TCloseArray), ("<<", TOpenDict), (">>", TCloseDict)}
    ensures NextToken(Encode(bracket) + rest) == Some(Lexed(token, rest))
  {
    EncodeAscii(bracket);
    var bs := Encode(bracket) + rest;
    assert bs[|bracket|..] == rest;
  }

  // ----- Written objects are read -----

  predicate WellFormed(o: Obj)
    decreases o
  {
    match o
    case Name(text) => RegularText(text)
    case Int(n) => n >= 0
    case Ref(n, g) => n >= 0 && g >= 0
    case Arr(items) => forall i :: 0 <= i < |items| ==> WellFormed(items[i])
    case Dict(pairs) => forall i :: 0 <= i < |pairs| ==> RegularText(pairs[i].key) && WellFormed(pairs[i].value)
  }

  /** A number in front of these bytes is not taken for a reference. */
  predicate NotRef(bs: seq<Byte>) {
    match NextToken(bs)
    case Some(Lexed(TNumber(_), rest)) => SkipWord(rest, "R").None?
    case _ => true
  }

  lemma SpacedNumber(n: nat, rest: seq<Byte>)
    requires Stops(rest)
    ensures NextToken(Encode(" ") + (Encode(Decimal(n)) + rest)) == Some(Lexed(TNumber(n), rest))
  {
    SpaceIsSkipped(Encode(Decimal(n)) + rest);
    NumberIsRead(n, rest);
  }

  lemma SpacedWord(word: string, rest: seq<Byte>)
    requires IsWord(word) && Stops(rest)
    ensures Stops(Encode(" " + word) + rest) && SkipWord(Encode(" " + word) + rest, word) == Some(rest)
  {
    SplitBytes(" ", word, rest);
    Front(" ", 32, Encode(word) + rest);
    SpaceIsSkipped(Encode(word) + rest);
    WordIsRead(word, rest);
  }

  lemma WordOnLine(word: string, rest: seq<Byte>)
    requires IsWord(word) && Stops(rest)
    ensures Stops(Encode("\n" + word) + rest) && SkipWord(Encode("\n" + word) + rest, word) == Some(rest)
  {
    SplitBytes("\n", word, rest);
    LineEndIsSkipped(Encode(word) + rest);
    WordIsRead(word, rest);
  }

  lemma TailIsRead(g: nat, word: string, rest: seq<Byte>)
    requires IsWord(word) && Stops(rest)
    ensures var tail := Encode(PrintTail(Decimal(g), word)) + rest;
            && Stops(tail) && NextToken(tail) == Some(Lexed(TNumber(g), Encode(" " + word) + rest))
            && SkipWord(Encode(" " + word) + rest, word) == Some(rest)
  {
    SpacedWord(word, rest);
    var after := Encode(" " + word) + rest;
    SplitBytes(" ", Decimal(g) + (" " + word), rest);
    SplitBytes(Decimal(g), " " + word, rest);
    SpacedNumber(g, after);
    Front(" ", 32, Encode(Decimal(g)) + after);
  }

  lemma RefBytes(n: nat, g: nat, rest: seq<Byte>)
    requires Stops(rest)
    ensures var tail := Encode(PrintTail(Decimal(g), "R")) + rest;
            && Encode(Print(Ref(n, g))) + rest == Encode(Decimal(n)) + tail
            && NextToken(Encode(Print(Ref(n, g))) + rest) == Some(Lexed(TNumber(n), tail))
            && NextToken(tail).Some? && NextToken(tail).value.token == TNumber(g)
            && SkipWord(NextToken(tail).value.rest, "R") == Some(rest)
  {
    var word := "R";
    SplitBytes(Decimal(n), PrintTail(Decimal(g), word), rest);
    TailIsRead(g, word, rest);
    NumberIsRead(n, Encode(PrintTail(Decimal(g), word)) + rest);
  }

  lemma RefIsParsed(n: nat, g: nat, rest: seq<Byte>)
    requires Stops(rest)
    ensures ParseValue(Encode(Print(Ref(n, g))) + rest) == Some(Parsed(Ref(n, g), rest))
  {
    RefBytes(n, g, rest);
  }

  /** The first token of a written object. */
  lemma FirstToken(o: Obj, rest: seq<Byte>)
    requires WellFormed(o) && Stops(rest)
    ensures NextToken(Encode(Print(o)) + rest).Some?
    ensures var token := NextToken(Encode(Print(o)) + rest).value.token;
            !token.TWord? && !token.TCloseArray? && !token.TCloseDict?
  {
    match o
    case Name(text) =>
      SplitBytes("/", text, rest);
      NameIsRead(text, rest);
    case Int(n) => NumberIsRead(n, rest);
    case Ref(n, g) =>
      RefBytes(n, g, rest);
    case Arr(items) =>
      SplitBytes("[", PrintItems(items), rest);
      BracketIsRead("[", TOpenArray, Encode(PrintItems(items)) + rest);
    case Dict(pairs) =>
      SplitBytes("<<", PrintPairs(pairs), rest);
      BracketIsRead("<<", TOpenDict, Encode(PrintPairs(pairs)) + rest);
  }

  /** Bytes whose next token is no word cannot make a reference of two numbers before them. */
  predicate NoWord(bs: seq<Byte>) {
    NextToken(bs).Some? && !NextToken(bs).value.token.TWord?
  }

  lemma WrittenIsNotRef(o: Obj, rest: seq<Byte>)
    requires WellFormed(o) && Stops(rest) && NoWord(rest)
    ensures NotRef(Encode(Print(o)) + rest)
  {
    FirstToken(o, rest);
    if o.Int? {
      NumberIsRead(o.value, rest);
    } else if o.Ref? {
      RefBytes(o.number, o.generation, rest);
    } else if o.Name? {
      SplitBytes("/", o.text, rest);
      NameIsRead(o.text, rest);
    } else if o.Arr? {
      SplitBytes("[", PrintItems(o.items), rest);
      BracketIsRead("[", TOpenArray, Encode(PrintItems(o.items)) + rest);
    } else {
      SplitBytes("<<", PrintPairs(o.pairs), rest);
      BracketIsRead("<<", TOpenDict, Encode(PrintPairs(o.pairs)) + rest);
    }
  }

  /** What follows an item of an array: the closing bracket, or a space and the next item. */
  lemma AfterItem(items: seq<Obj>, rest: seq<Byte>)
    requires forall i :: 0 <= i < |items| ==> WellFormed(items[i])
    ensures var bs := Encode((if |items| > 0 then " " else "") + PrintItems(items)) + rest;
            && Stops(bs) && NoWord(bs) && NotRef(bs)
            && NextToken(bs) == NextToken(Encode(PrintItems(items)) + rest)
            && (NextToken(bs).value.token.TCloseArray? <==> |items| == 0)
    decreases |items|
  {
    var tail := Encode(PrintItems(items)) + rest;
    if |items| == 0 {
      assert "" + PrintItems(items) == "]";
      BracketIsRead("]", TCloseArray, rest);
      Front("]", 93, rest);
    } else {
      var others := items[1..];
      var separator := if |items| > 1 then " " else "";
      var more := Encode(separator + PrintItems(others)) + rest;
      AfterItem(others, rest);
      SplitBytes(" ", PrintItems(items), rest);
      SplitBytes(Print(items[0]), separator + PrintItems(others), rest);
      assert tail == Encode(Print(items[0])) + more;
      FirstToken(items[0], more);
      WrittenIsNotRef(items[0], more);
      SpaceIsSkipped(tail);
      Front(" ", 32, tail);
    }
  }

  /** What follows a value of a dictionary: a space and the next key, or the end. */
  lemma AfterValue(pairs: seq<Pair>, rest: seq<Byte>)
    requires forall i :: 0 <= i < |pairs| ==> RegularText(pairs[i].key)
    ensures var bs := Encode(PrintPairs(pairs)) + rest;
            && Stops(bs) && NotRef(bs)
            && (|pairs| == 0 ==> NextToken(bs) == Some(Lexed(TCloseDict, rest)))
            && (|pairs| > 0 ==>
                  NextToken(bs) == Some(Lexed(TName(pairs[0].key), Encode(AfterKey(pairs)) + rest)))
  {
    if |pairs| == 0 {
      CloseIsRead(rest);
    } else {
      AfterKeyStops(pairs, rest);
      KeyIsRead(pairs[0].key, AfterKey(pairs), rest);
      assert PrintPairs(pairs) == " /" + (pairs[0].key + AfterKey(pairs));
    }
  }

  lemma CloseIsRead(rest: seq<Byte>)
    ensures var bs := Encode(" >>") + rest;
            Stops(bs) && NextToken(bs) == Some(Lexed(TCloseDict, rest))
  {
    assert " >>" == " " + ">>";
    SplitBytes(" ", ">>", rest);
    Front(" ", 32, Encode(">>") + rest);
    SpaceIsSkipped(Encode(">>") + rest);
    BracketIsRead(">>", TCloseDict, rest);
  }

  lemma KeyIsRead(key: string, after: string, rest: seq<Byte>)
    requires RegularText(key) && Stops(Encode(after) + rest)
    ensures var bs := Encode(" /" + (key + after)) + rest;
            Stops(bs) && NextToken(bs) == Some(Lexed(TName(key), Encode(after) + rest))
  {
    assert " /" == " " + "/";
    SplitBytes(" /", key + after, rest);
    SplitBytes(" ", "/", Encode(key + after) + rest);
    SplitBytes(key, after, rest);
    Front(" ", 32, Encode("/") + (Encode(key) + (Encode(after) + rest)));
    SpaceIsSkipped(Encode("/") + (Encode(key) + (Encode(after) + rest)));
    NameIsRead(key, Encode(after) + rest);
  }

  function AfterKey(pairs: seq<Pair>): string
    requires |pairs| > 0
  {
    " " + (Print(pairs[0].value) + PrintPairs(pairs[1..]))
  }

  lemma AfterKeyStops(pairs: seq<Pair>, rest: seq<Byte>)
    requires |pairs| > 0
    ensures Stops(Encode(AfterKey(pairs)) + rest)
    ensures Encode(AfterKey(pairs)) + rest
            == Encode(" ") + (Encode(Print(pairs[0].value)) + (Encode(PrintPairs(pairs[1..])) + rest))
  {
    var value, more := Print(pairs[0].value), PrintPairs(pairs[1..]);
    SplitBytes(" ", value + more, rest);
    SplitBytes(value, more, rest);
    Front(" ", 32, Encode(value) + (Encode(more) + rest));
  }

  /** Round trip: a written object reads back as itself, and reading stops right behind it. */
  lemma {:induction false} ParsePrinted(o: Obj, rest: seq<Byte>)
    requires WellFormed(o) && Stops(rest) && (o.Int? ==> NotRef(rest))
    ensures ParseValue(Encode(Print(o)) + rest) == Some(Parsed(o, rest))
    decreases o, 0
  {
    match o
    case Name(text) => NameIsParsed(text, rest);
    case Int(n) => NumberIsRead(n, rest);
    case Ref(n, g) => RefIsParsed(n, g, rest);
    case Arr(items) =>
      ItemsParsed(items, rest);
      ArrIsParsed(items, rest);
    case Dict(pairs) =>
      PairsParsed(pairs, rest);
      DictIsParsed(pairs, rest);
  }

  lemma NameIsParsed(text: string, rest: seq<Byte>)
    requires RegularText(text) && Stops(rest)
    ensures ParseValue(Encode(Print(Name(text))) + rest) == Some(Parsed(Name(text), rest))
  {
    SplitBytes("/", text, rest);
    NameIsRead(text, rest);
  }

  lemma ArrIsParsed(items: seq<Obj>, rest: seq<Byte>)
    requires ParseItems(Encode(PrintItems(items)) + rest) == Some(Parsed(items, rest))
    ensures ParseValue(Encode(Print(Arr(items))) + rest) == Some(Parsed(Arr(items), rest))
  {
    SplitBytes("[", PrintItems(items), rest);
    BracketIsRead("[", TOpenArray, Encode(PrintItems(items)) + rest);
  }

  lemma DictIsParsed(pairs: seq<Pair>, rest: seq<Byte>)
    requires ParsePairs(Encode(PrintPairs(pairs)) + rest) == Some(Parsed(pairs, rest))
    ensures ParseValue(Encode(Print(Dict(pairs))) + rest) == Some(Parsed(Dict(pairs), rest))
  {
    SplitBytes("<<", PrintPairs(pairs), rest);
    BracketIsRead("<<", TOpenDict, Encode(PrintPairs(pairs)) + rest);
    OpenedDict(Encode(Print(Dict(pairs))) + rest, Encode(PrintPairs(pairs)) + rest, pairs, rest);
  }

  lemma OpenedDict(bs: seq<Byte>, after: seq<Byte>, pairs: seq<Pair>, rest: seq<Byte>)
    requires NextToken(bs) == Some(Lexed(TOpenDict, after)) && ParsePairs(after) == Some(Parsed(pairs, rest))
    ensures ParseValue(bs) == Some(Parsed(Dict(pairs), rest))
  {
  }

  lemma {:induction false} ItemsParsed(items: seq<Obj>, rest: seq<Byte>)
    requires forall i :: 0 <= i < |items| ==> WellFormed(items[i])
    ensures ParseItems(Encode(PrintItems(items)) + rest) == Some(Parsed(items, rest))
    decreases items, 1
  {
    if |items| == 0 {
      BracketIsRead("]", TCloseArray, rest);
    } else {
      ItemsSplit(items, rest);
      ParsePrinted(items[0], AfterFirst(items, rest));
      ItemsParsed(items[1..], rest);
      FirstThenOthers(Encode(PrintItems(items)) + rest, AfterFirst(items, rest), items, rest);
    }
  }

  /** The bytes of the items: a first item that can be read, then bytes that read as the others do. */
  lemma ItemsSplit(items: seq<Obj>, rest: seq<Byte>)
    requires |items| > 0 && forall i :: 0 <= i < |items| ==> WellFormed(items[i])
    ensures var bs, more := Encode(PrintItems(items)) + rest, AfterFirst(items, rest);
            && bs == Encode(Print(items[0])) + more && Stops(more) && NotRef(more)
            && NextToken(bs).Some? && !NextToken(bs).value.token.TCloseArray?
            && ParseItems(more) == ParseItems(Encode(PrintItems(items[1..])) + rest)
  {
    AfterItem(items, rest);
    AfterItem(items[1..], rest);
    ItemBytes(items, rest);
    OthersParsed(items, rest);
  }

  lemma FirstThenOthers(bs: seq<Byte>, more: seq<Byte>, items: seq<Obj>, rest: seq<Byte>)
    requires |items| > 0 && NextToken(bs).Some? && !NextToken(bs).value.token.TCloseArray?
    requires ParseValue(bs) == Some(Parsed(items[0], more)) && ParseItems(more) == Some(Parsed(items[1..], rest))
    ensures ParseItems(bs) == Some(Parsed(items, rest))
  {
    assert items == [items[0]] + items[1..];
  }

  lemma OthersParsed(items: seq<Obj>, rest: seq<Byte>)
    requires |items| > 0
    ensures ParseItems(AfterFirst(items, rest)) == ParseItems(Encode(PrintItems(items[1..])) + rest)
  {
    SpaceBeforeItems(if |items| > 1 then " " else "", items[1..], rest);
  }

  function AfterFirst(items: seq<Obj>, rest: seq<Byte>): seq<Byte>
    requires |items| > 0
  {
    Encode((if |items| > 1 then " " else "") + PrintItems(items[1..])) + rest
  }

  lemma ItemBytes(items: seq<Obj>, rest: seq<Byte>)
    requires |items| > 0
    ensures Encode(PrintItems(items)) + rest == Encode(Print(items[0])) + AfterFirst(items, rest)
  {
    SplitBytes(Print(items[0]), (if |items| > 1 then " " else "") + PrintItems(items[1..]), rest);
  }

  lemma SpaceBeforeItems(separator: string, items: seq<Obj>, rest: seq<Byte>)
    requires separator == if |items| > 0 then " " else ""
    ensures ParseItems(Encode(separator + PrintItems(items)) + rest) == ParseItems(Encode(PrintItems(items)) + rest)
  {
    if |items| > 0 {
      SplitBytes(" ", PrintItems(items), rest);
      SpaceBefore(Encode(PrintItems(items)) + rest);
    } else {
      assert separator + PrintItems(items) == PrintItems(items);
    }
  }

  lemma SpaceBefore(bs: seq<Byte>)
    ensures ParseItems(Encode(" ") + bs) == ParseItems(bs)
    ensures ParseValue(Encode(" ") + bs) == ParseValue(bs)
  {
    SpaceIsSkipped(bs);
  }

  lemma {:induction false} PairsParsed(pairs: seq<Pair>, rest: seq<Byte>)
    requires forall i :: 0 <= i < |pairs| ==> RegularText(pairs[i].key) && WellFormed(pairs[i].value)
    ensures ParsePairs(Encode(PrintPairs(pairs)) + rest) == Some(Parsed(pairs, rest))
    decreases pairs, 1
  {
    if |pairs| == 0 {
      AfterValue(pairs, rest);
    } else {
      var more := Encode(PrintPairs(pairs[1..])) + rest;
      PairsSplit(pairs, rest);
      ParsePrinted(pairs[0].value, more);
      PairsParsed(pairs[1..], rest);
      FirstThenPairs(Encode(PrintPairs(pairs)) + rest, Encode(AfterKey(pairs)) + rest, more, pairs, rest);
    }
  }

  /** The bytes of the pairs: a first key, its value behind a space, then the other pairs. */
  lemma PairsSplit(pairs: seq<Pair>, rest: seq<Byte>)
    requires |pairs| > 0 && forall i :: 0 <= i < |pairs| ==> RegularText(pairs[i].key)
    ensures var value := Encode(AfterKey(pairs)) + rest;
            var more := Encode(PrintPairs(pairs[1..])) + rest;
            && NextToken(Encode(PrintPairs(pairs)) + rest) == Some(Lexed(TName(pairs[0].key), value))
            && ParseValue(value) == ParseValue(Encode(Print(pairs[0].value)) + more)
            && Stops(more) && NotRef(more)
  {
    AfterValue(pairs, rest);
    AfterValue(pairs[1..], rest);
    AfterKeyStops(pairs, rest);
    SpaceBefore(Encode(Print(pairs[0].value)) + (Encode(PrintPairs(pairs[1..])) + rest));
  }

  lemma FirstThenPairs(bs: seq<Byte>, value: seq<Byte>, more: seq<Byte>, pairs: seq<Pair>, rest: seq<Byte>)
    requires |pairs| > 0 && NextToken(bs) == Some(Lexed(TName(pairs[0].key), value))
    requires ParseValue(value) == Some(Parsed(pairs[0].value, more))
    requires ParsePairs(more) == Some(Parsed(pairs[1..], rest))
    ensures ParsePairs(bs) == Some(Parsed(pairs, rest))
  {
    assert pairs == [pairs[0]] + pairs[1..];
  }
}
