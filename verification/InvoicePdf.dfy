/**
 * The hand-built invoice PDF, and a reader that finds the page text the way sections 7.5.4, 7.5.5 and 7.3.8 of
 * ISO 32000-1 prescribe: from `startxref` to the cross-reference table, the trailer, the page and its stream.
 */
module InvoicePdf {
  import opened Common
  import opened Utf8
  import opened PdfStrings
  import opened PdfObjects
  import opened PdfContent
  import opened InvoiceObjects

  /** Dates and amounts carry their formatted text. */
  datatype InvoicePdfInput = InvoicePdfInput(
    invoiceNumber: string,
    organizationName: string,
    planName: string,
    issuedOn: string,
    subtotalText: string,
    taxText: string,
    totalText: string)

  // ----- The document as text -----

  function Lines(input: InvoicePdfInput): seq<string> {
    [ "RE-OS Tax Invoice",
      "Invoice: " + input.invoiceNumber,
      "Organization: " + input.organizationName,
      "Plan: " + input.planName,
      "Issued: " + input.issuedOn,
      "Subtotal: " + input.subtotalText,
      "GST (18%): " + input.taxText,
      "Total: " + input.totalText ]
  }

  const BEGIN_TEXT := "BT" + (" /F1" + (" 11" + (" Tf" + SET_LEADING)))
  const SET_LEADING := " 14" + (" TL" + (" 50" + (" 780" + " Td")))

  function TextOp(i: nat, line: string): string {
    (if i == 0 then " " else " T* ") + ("(" + EscapePdfString(line) + ")") + " Tj"
  }

  function ShowLines(begin: string, lines: seq<string>): string {
    if |lines| == 0 then begin
    else ShowLines(begin, lines[..|lines| - 1]) + TextOp(|lines| - 1, lines[|lines| - 1])
  }

  function TextOps(lines: seq<string>): string {
    ShowLines(BEGIN_TEXT, lines) + " ET"
  }

  const NAME := " 0 obj\n"
  const STREAM := "\nstream\n"
  const END_STREAM := "\nendstream"
  const END_OBJECT := "\nendobj\n"

  function Object(number: string, body: string): string {
    number + (NAME + (body + END_OBJECT))
  }

  function StreamBody(content: string): string {
    StreamDict(|Encode(content)|) + (STREAM + (content + END_STREAM))
  }

  function Objects(textOps: string): seq<string> {
    [ Object("1", CATALOG), Object("2", PAGES), Object("3", PAGE), Object("4", StreamBody(textOps)), Object("5", FONT) ]
  }

  const HEADER := "%PDF-1.4\n"

  function Body(objects: seq<string>): string {
    if |objects| == 0 then HEADER else Body(objects[..|objects| - 1]) + objects[|objects| - 1]
  }

  /** Where object i (from 1) starts; for i one past the last, where the body ends. */
  function Offset(objects: seq<string>, i: nat): nat
    requires 1 <= i <= |objects| + 1
  {
    |Encode(Body(objects[..i - 1]))|
  }

  const IN_USE := " 00000 n \n"
  const FREE := " 65535 f \n"
  const FREE_ENTRY := "0000000000" + FREE

  function XrefEntry(offset: nat): string {
    Pad10(offset) + IN_USE
  }

  /** Where each object starts. */
  function Offsets(objects: seq<string>): seq<nat> {
    seq(|objects|, i requires 0 <= i < |objects| => Offset(objects, i + 1))
  }

  /** The entry of object 0, then those of the objects at the given offsets. */
  function XrefTable(first: string, offsets: seq<nat>): string {
    if |offsets| == 0 then first
    else XrefTable(first, offsets[..|offsets| - 1]) + XrefEntry(offsets[|offsets| - 1])
  }

  function XrefHead(size: nat): string {
    "xref\n0 " + (Decimal(size) + "\n")
  }

  function Trailer(size: nat): string {
    "trailer\n" + (TrailerDict(size) + "\n")
  }

  function StartXref(offset: nat): string {
    "startxref\n" + (Decimal(offset) + "\n%%EOF")
  }

  function Document(objects: seq<string>): string {
    var size := |objects| + 1;
    Body(objects)
    + (XrefHead(size) + (XrefTable(FREE_ENTRY, Offsets(objects)) + (Trailer(size) + StartXref(Offset(objects, size)))))
  }

  // ----- The reader -----

  /** A keyword of ASCII characters at position k. */
  predicate KeywordAt(bs: seq<Byte>, k: int, text: string) {
    0 <= k <= |bs| - |text| && forall i :: 0 <= i < |text| ==> bs[k + i] == text[i] as int
  }

  /** LF or CR LF. */
  function SkipEol(bs: seq<Byte>): Option<seq<Byte>> {
    if |bs| > 0 && bs[0] == LF then Some(bs[1..])
    else if |bs| > 1 && bs[0] == CR && bs[1] == LF then Some(bs[2..])
    else None
  }

  function DigitsAtEnd(bs: seq<Byte>): (k: nat)
    ensures k <= |bs|
  {
    if |bs| > 0 && IsDigitByte(bs[|bs| - 1]) then 1 + DigitsAtEnd(bs[..|bs| - 1]) else 0
  }

  /** A numeral on a line of its own, after a line `head`. */
  function ReadLastLine(bs: seq<Byte>, head: string): Option<int> {
    var k := DigitsAtEnd(bs);
    if k > 0 && KeywordAt(bs, |bs| - k - |head|, head) then Some(ParseDecimal(bs[|bs| - k..])) else None
  }

  /** The offset between `startxref` and the end-of-file marker. */
  function ReadStartXref(bs: seq<Byte>): Option<int> {
    var end := "\n%%EOF";
    if KeywordAt(bs, |bs| - |end|, end) then ReadLastLine(bs[..|bs| - |end|], "startxref\n") else None
  }

  datatype Entry = Entry(offset: int, generation: int, inUse: bool)

  /** A 20-byte entry: ten digits, five digits, `n` or `f`, and a two-character end of line. */
  function ReadEntry(e: seq<Byte>): Option<Entry>
    requires |e| == 20
  {
    if AllDigits(e[..10]) && e[10] == 32 && AllDigits(e[11..16]) && e[16] == 32
       && (e[17] == 'n' as int || e[17] == 'f' as int) && e[18] == 32 && e[19] == LF
    then Some(Entry(ParseDecimal(e[..10]), ParseDecimal(e[11..16]), e[17] == 'n' as int))
    else None
  }

  function ReadTable(t: seq<Byte>): Option<seq<Entry>> {
    if |t| == 0 then Some([])
    else if |t| < 20 then None
    else
      match (ReadTable(t[..|t| - 20]), ReadEntry(t[|t| - 20..]))
      case (Some(entries), Some(e)) => Some(entries + [e])
      case _ => None
  }

  datatype Xref = Xref(entries: seq<Entry>, trailer: Obj)

  function ReadTrailer(bs: seq<Byte>, entries: seq<Entry>): Option<Xref> {
    match SkipWord(bs, "trailer")
    case None => None
    case Some(rest) =>
      match ParseValue(rest)
      case None => None
      case Some(p) =>
        if Get(p.value, "Size") == Some(Int(|entries|)) then Some(Xref(entries, p.value)) else None
  }

  /** The size on the head line of a section that starts at object 0, and what follows that line. */
  function ReadHead(bs: seq<Byte>): Option<Parsed<int>> {
    match SkipWord(bs, "xref")
    case None => None
    case Some(rest) =>
      match NextToken(rest)
      case Some(Lexed(TNumber(first), more)) =>
        (match NextToken(more)
         case Some(Lexed(TNumber(size), eol)) =>
           if first == 0 && size >= 0 && SkipEol(eol).Some? then Some(Parsed(size, SkipEol(eol).value)) else None
         case _ => None)
      case _ => None
  }

  /** One cross-reference section that starts at object 0, and its trailer. */
  function ReadSection(bs: seq<Byte>): Option<Xref> {
    match ReadHead(bs)
    case None => None
    case Some(p) =>
      if 0 <= 20 * p.value <= |p.rest| then
        match ReadTable(p.rest[..20 * p.value])
        case None => None
        case Some(entries) => ReadTrailer(p.rest[20 * p.value..], entries)
      else None
  }

  function ReadXref(bs: seq<Byte>): Option<Xref> {
    match ReadStartXref(bs)
    case None => None
    case Some(x) => if 0 <= x <= |bs| then ReadSection(bs[x..]) else None
  }

  /** The value of the object with this number and generation that starts here. */
  function ReadObject(bs: seq<Byte>, number: int, generation: int): Option<Parsed<Obj>> {
    match NextToken(bs)
    case Some(Lexed(TNumber(n), rest)) =>
      (match NextToken(rest)
       case Some(Lexed(TNumber(g), more)) =>
         (match SkipWord(more, "obj")
          case None => None
          case Some(body) => if n == number && g == generation then ParseValue(body) else None)
       case _ => None)
    case _ => None
  }

  /** The object a reference leads to, and what follows its value. */
  function Fetch(bs: seq<Byte>, xref: Xref, ref: Option<Obj>): Option<Parsed<Obj>> {
    match ref
    case Some(Ref(n, g)) =>
      if 0 <= n < |xref.entries| && xref.entries[n].inUse && xref.entries[n].generation == g
         && 0 <= xref.entries[n].offset <= |bs|
      then ReadObject(bs[xref.entries[n].offset..], n, g)
      else None
    case _ => None
  }

  /** A dictionary of the given type. */
  function FetchDict(bs: seq<Byte>, xref: Xref, ref: Option<Obj>, kind: string): Option<Obj> {
    match Fetch(bs, xref, ref)
    case None => None
    case Some(p) =>
      if Get(p.value, "Type") == Some(Name(kind)) && SkipWord(p.rest, "endobj").Some? then Some(p.value) else None
  }

  /** The data of a stream: exactly `/Length` bytes after the line of `stream`, with `endstream` behind them. */
  function ReadData(bs: seq<Byte>, length: Option<Obj>): Option<seq<Byte>> {
    match SkipWord(bs, "stream")
    case None => None
    case Some(eol) =>
      match SkipEol(eol)
      case None => None
      case Some(data) =>
        if length.Some? && length.value.Int? && 0 <= length.value.value <= |data|
           && EndsStream(data[length.value.value..])
        then Some(data[..length.value.value])
        else None
  }

  predicate EndsStream(bs: seq<Byte>) {
    match SkipWord(bs, "endstream")
    case None => false
    case Some(rest) => SkipWord(rest, "endobj").Some?
  }

  function FetchStream(bs: seq<Byte>, xref: Xref, ref: Option<Obj>): Option<seq<Byte>> {
    match Fetch(bs, xref, ref)
    case None => None
    case Some(p) => ReadData(p.rest, Get(p.value, "Length"))
  }

  /** The strings shown on the first page of the document, and where. */
  function ReadPdf(bs: seq<Byte>): Option<seq<Shown>> {
    match ReadXref(bs)
    case None => None
    case Some(xref) =>
      match FetchDict(bs, xref, Get(xref.trailer, "Root"), "Catalog")
      case None => None
      case Some(catalog) =>
        match FetchDict(bs, xref, Get(catalog, "Pages"), "Pages")
        case None => None
        case Some(pages) => ReadFirstPage(bs, xref, Get(catalog, "Pages"), pages)
  }

  function ReadFirstPage(bs: seq<Byte>, xref: Xref, parent: Option<Obj>, pages: Obj): Option<seq<Shown>> {
    match Get(pages, "Kids")
    case Some(Arr(kids)) =>
      if |kids| == 0 || Get(pages, "Count") != Some(Int(|kids|)) then None
      else
        (match FetchDict(bs, xref, Some(kids[0]), "Page")
         case None => None
         case Some(page) => if Get(page, "Parent") != parent then None else ReadPage(bs, xref, page))
    case _ => None
  }

  function ReadPage(bs: seq<Byte>, xref: Xref, page: Obj): Option<seq<Shown>> {
    match FetchStream(bs, xref, Get(page, "Contents"))
    case None => None
    case Some(content) => Show(content, START, Fonts(bs, xref, page))
  }

  /** The names of the page's font resources that lead to a font. */
  function Fonts(bs: seq<Byte>, xref: Xref, page: Obj): set<string> {
    match Get(page, "Resources")
    case None => {}
    case Some(resources) =>
      match Get(resources, "Font")
      case Some(Dict(pairs)) =>
        (set p | p in pairs && FetchDict(bs, xref, Some(p.value), "Font").Some? :: p.key)
      case _ => {}
  }

  // ----- The end of the file is read -----

  lemma {:induction false} DigitRunAtEnd(before: seq<Byte>, digits: seq<Byte>)
    requires AllDigits(digits) && (|before| == 0 || !IsDigitByte(before[|before| - 1]))
    ensures DigitsAtEnd(before + digits) == |digits|
    decreases |digits|
  {
    if |digits| == 0 {
      assert before + digits == before;
    } else {
      DigitRunAtEnd(before, digits[..|digits| - 1]);
      assert (before + digits)[..|before + digits| - 1] == before + digits[..|digits| - 1];
    }
  }

  // ----- The cross-reference table is read -----

  /** The ten bytes after the offset: a space, the generation, and the kind of the entry. */
  predicate IsEntryTail(tail: seq<Byte>) {
    |tail| == 10 && tail[0] == 32 && AllDigits(tail[1..6]) && tail[6] == 32
    && (tail[7] == 'n' as int || tail[7] == 'f' as int) && tail[8] == 32 && tail[9] == LF
  }

  lemma EntryParts(digits: seq<Byte>, tail: seq<Byte>)
    requires |digits| == 10 && AllDigits(digits) && IsEntryTail(tail)
    ensures ReadEntry(digits + tail)
            == Some(Entry(ParseDecimal(digits), ParseDecimal(tail[1..6]), tail[7] == 'n' as int))
  {
    var e := digits + tail;
    assert e[..10] == digits;
    assert e[11..16] == tail[1..6];
  }

  lemma DigitText(s: string)
    requires forall i :: 0 <= i < |s| ==> '0' <= s[i] <= '9'
    ensures |Encode(s)| == |s| && AllDigits(Encode(s))
  {
  }

  lemma EntryTailText(s: string)
    requires |s| == 10 && s[0] == ' ' && s[6] == ' ' && (s[7] == 'n' || s[7] == 'f') && s[8] == ' ' && s[9] == '\n'
    requires forall i :: 1 <= i < 6 ==> '0' <= s[i] <= '9'
    ensures IsEntryTail(Encode(s)) && (Encode(s)[7] == 'n' as int <==> s[7] == 'n')
    ensures (forall i :: 1 <= i < 6 ==> s[i] == '0') ==> ParseDecimal(Encode(s)[1..6]) == 0
  {
    EncodeAscii(s);
    FiveZeros();
    if forall i :: 1 <= i < 6 ==> s[i] == '0' {
      assert Encode(s)[1..6] == [48, 48, 48, 48, 48];
    }
  }

  /** An entry has its 20 bytes exactly while the offset is below ten to the tenth; it then reads as that offset. */
  lemma EntryIsRead(offset: nat)
    ensures |Encode(XrefEntry(offset))| == 20 <==> offset < 10_000_000_000
    ensures |Encode(XrefEntry(offset))| == 20 ==> ReadEntry(Encode(XrefEntry(offset))) == Some(Entry(offset, 0, true))
  {
    Pad10RoundTrip(offset);
    InUseText();
    EntryText(Pad10(offset), IN_USE);
  }

  lemma InUseText()
    ensures IsEntryTail(Encode(IN_USE)) && Encode(IN_USE)[7] == 'n' as int && ParseDecimal(Encode(IN_USE)[1..6]) == 0
  {
    EntryTailText(IN_USE);
  }

  lemma EntryText(number: string, tail: string)
    requires AllDigits(Encode(number)) && |Encode(number)| == |number| && IsEntryTail(Encode(tail))
    ensures var e := Encode(number + tail);
            && (|e| == 20 <==> |number| == 10)
            && (|e| == 20 ==> ReadEntry(e) == Some(Entry(ParseDecimal(Encode(number)),
                                                        ParseDecimal(Encode(tail)[1..6]), Encode(tail)[7] == 'n' as int)))
  {
    EncodeConcat(number, tail);
    if |number| == 10 {
      EntryParts(Encode(number), Encode(tail));
    }
  }

  lemma FreeEntryIsRead()
    ensures |Encode(FREE_ENTRY)| == 20
    ensures ReadEntry(Encode(FREE_ENTRY)).Some? && !ReadEntry(Encode(FREE_ENTRY)).value.inUse
  {
    var zeros := "0000000000";
    EntryTailText(FREE);
    DigitText(zeros);
    EncodeConcat(zeros, FREE);
    EntryParts(Encode(zeros), Encode(FREE));
  }

  lemma FiveZeros()
    ensures ParseDecimal([48, 48, 48, 48, 48]) == 0
  {
    assert [] + [48] == [48];
    ParseAppend([], 0);
    ParseAppend([48], 0);
    assert [48] + [48] == [48, 48];
    ParseAppend([48, 48], 0);
    assert [48, 48] + [48] == [48, 48, 48];
    ParseAppend([48, 48, 48], 0);
    assert [48, 48, 48] + [48] == [48, 48, 48, 48];
    ParseAppend([48, 48, 48, 48], 0);
    assert [48, 48, 48, 48] + [48] == [48, 48, 48, 48, 48];
  }

  // ----- The file is found from its end -----

  /** The offsets need at most ten digits. */
  predicate Fits(offsets: seq<nat>) {
    forall i :: 0 <= i < |offsets| ==> offsets[i] < 10_000_000_000
  }

  predicate Describes(entries: seq<Entry>, offsets: seq<nat>) {
    && |entries| == |offsets| + 1 && !entries[0].inUse
    && forall i :: 1 <= i <= |offsets| ==> entries[i] == Entry(offsets[i - 1], 0, true)
  }

  lemma TableGrows(t: seq<Byte>, e: seq<Byte>)
    requires |e| == 20 && ReadTable(t).Some? && ReadEntry(e).Some?
    ensures ReadTable(t + e) == Some(ReadTable(t).value + [ReadEntry(e).value])
  {
  }

  /** A table of 20-byte entries that reads as the given offsets. */
  predicate Lists(table: seq<Byte>, offsets: seq<nat>) {
    |table| == 20 * (|offsets| + 1) && ReadTable(table).Some? && Describes(ReadTable(table).value, offsets)
  }

  lemma {:induction false} TableIsRead(first: string, offsets: seq<nat>)
    requires Fits(offsets) && Lists(Encode(first), [])
    ensures Lists(Encode(XrefTable(first, offsets)), offsets)
    decreases |offsets|
  {
    if |offsets| == 0 {
      assert offsets == [];
    } else {
      var before := offsets[..|offsets| - 1];
      TableIsRead(first, before);
      LastEntry(first, offsets);
      ListsOneMore(XrefTable(first, offsets), XrefTable(first, before), offsets);
    }
  }

  lemma ListsOneMore(table: string, front: string, offsets: seq<nat>)
    requires |offsets| > 0 && Lists(Encode(front), offsets[..|offsets| - 1]) && offsets[|offsets| - 1] < 10_000_000_000
    requires table == front + XrefEntry(offsets[|offsets| - 1])
    ensures Lists(Encode(table), offsets)
  {
    var before, offset := offsets[..|offsets| - 1], offsets[|offsets| - 1];
    OneMoreEntry(front, before, offset);
    assert offsets == before + [offset];
  }

  lemma LastEntry(first: string, offsets: seq<nat>)
    requires |offsets| > 0
    ensures var n := |offsets| - 1;
            XrefTable(first, offsets) == XrefTable(first, offsets[..n]) + XrefEntry(offsets[n])
  {
  }

  lemma OneMoreEntry(table: string, offsets: seq<nat>, offset: nat)
    requires Lists(Encode(table), offsets) && offset < 10_000_000_000
    ensures Lists(Encode(table + XrefEntry(offset)), offsets + [offset])
  {
    EntryIsRead(offset);
    EncodeConcat(table, XrefEntry(offset));
    TableGrows(Encode(table), Encode(XrefEntry(offset)));
  }

  lemma FirstEntry(e: seq<Byte>)
    requires |e| == 20 && ReadEntry(e).Some?
    ensures ReadTable(e) == Some([ReadEntry(e).value])
  {
    var none: seq<Byte> := [];
    TableGrows(none, e);
    assert none + e == e;
    assert ReadTable(none).value + [ReadEntry(e).value] == [ReadEntry(e).value];
  }

  lemma TrailerIsRead(size: nat, entries: seq<Entry>, after: seq<Byte>)
    requires |entries| == size
    ensures ReadTrailer(Encode(Trailer(size)) + after, entries) == Some(Xref(entries, TrailerObj(size)))
  {
    TrailerLine(TrailerDict(size) + "\n", after);
    TrailerValue(size, after);
    SizeKeys(size);
    TrailerParts(Encode(Trailer(size)) + after, entries, TrailerObj(size));
  }

  lemma TrailerParts(bs: seq<Byte>, entries: seq<Entry>, trailer: Obj)
    requires SkipWord(bs, "trailer").Some?
    requires ParseValue(SkipWord(bs, "trailer").value).Some?
    requires ParseValue(SkipWord(bs, "trailer").value).value.value == trailer
    requires Get(trailer, "Size") == Some(Int(|entries|))
    ensures ReadTrailer(bs, entries) == Some(Xref(entries, trailer))
  {
  }

  lemma TrailerLine(text: string, after: seq<Byte>)
    ensures SkipWord(Encode("trailer\n" + text) + after, "trailer").Some?
    ensures ParseValue(SkipWord(Encode("trailer\n" + text) + after, "trailer").value) == ParseValue(Encode(text) + after)
  {
    LineOfWord("trailer\n", "trailer", text, after);
  }

  lemma TrailerValue(size: nat, after: seq<Byte>)
    ensures ParseValue(Encode(TrailerDict(size) + "\n") + after)
            == Some(Parsed(TrailerObj(size), Encode("\n") + after))
  {
    TrailerText(size);
    SizesAreWellFormed(size);
    ObjectThenText(TrailerObj(size), "\n", after);
  }

  /** A written object in front of other text. */
  lemma ObjectThenText(o: Obj, tail: string, after: seq<Byte>)
    requires WellFormed(o) && o.Dict? && tail != "" && tail[0] == '\n'
    ensures ParseValue(Encode(Print(o) + tail) + after) == Some(Parsed(o, Encode(tail) + after))
  {
    SplitBytes(Print(o), tail, after);
    ParsePrinted(o, Encode(tail) + after);
  }

  /** A word alone on its line, then an object. */
  lemma LineOfWord(line: string, word: string, text: string, after: seq<Byte>)
    requires line == word + "\n" && IsWord(word)
    ensures SkipWord(Encode(line + text) + after, word).Some?
    ensures ParseValue(SkipWord(Encode(line + text) + after, word).value) == ParseValue(Encode(text) + after)
  {
    SplitBytes(line, text, after);
    SplitBytes(word, "\n", Encode(text) + after);
    LineEndIsSkipped(Encode(text) + after);
    WordIsRead(word, Encode("\n") + (Encode(text) + after));
  }

  lemma HeadIsRead(size: nat, after: seq<Byte>)
    ensures ReadHead(Encode(XrefHead(size)) + after) == Some(Parsed(size, after))
  {
    var eol := "\n";
    assert XrefHead(size) == "xref" + ("\n" + ("0" + (" " + (Decimal(size) + eol)))) by {
      HeadText(Decimal(size) + eol);
    }
    HeadParts("xref", "0", Decimal(size), size, after);
  }

  lemma HeadText(tail: string)
    ensures "xref\n0 " + tail == "xref" + ("\n" + ("0" + (" " + tail)))
  {
    assert "xref\n0 " == "xref" + ("\n" + ("0" + " "));
  }

  lemma HeadParts(word: string, zero: string, number: string, size: nat, after: seq<Byte>)
    requires word == "xref" && zero == Decimal(0) && number == Decimal(size)
    ensures ReadHead(Encode(word + ("\n" + (zero + (" " + (number + "\n"))))) + after) == Some(Parsed(size, after))
  {
    var eol := Encode("\n") + after;
    var spaced := Encode(" ") + (Encode(number) + eol);
    var line := Encode("\n") + (Encode(zero) + spaced);
    HeadBytes(word, zero, number, after);
    EolIsSkipped(after);
    SpacedNumber(size, eol);
    Front(" ", 32, Encode(number) + eol);
    LineThenNumber(0, spaced);
    WordOfLine(word, Encode(zero) + spaced);
    HeadTokens(Encode(word) + line, line, spaced, eol, size, after);
  }

  lemma EolIsSkipped(rest: seq<Byte>)
    ensures Stops(Encode("\n") + rest) && SkipEol(Encode("\n") + rest) == Some(rest)
  {
    Front("\n", 10, rest);
  }

  lemma WordOfLine(word: string, rest: seq<Byte>)
    requires IsWord(word)
    ensures SkipWord(Encode(word) + (Encode("\n") + rest), word) == Some(Encode("\n") + rest)
  {
    EolIsSkipped(rest);
    WordIsRead(word, Encode("\n") + rest);
  }

  lemma LineThenNumber(n: nat, rest: seq<Byte>)
    requires |rest| > 0 && IsSpace(rest[0])
    ensures NextToken(Encode("\n") + (Encode(Decimal(n)) + rest)) == Some(Lexed(TNumber(n), rest))
  {
    LineEndIsSkipped(Encode(Decimal(n)) + rest);
    PdfObjects.NumberIsRead(n, rest);
  }

  lemma HeadTokens(bs: seq<Byte>, line: seq<Byte>, spaced: seq<Byte>, eol: seq<Byte>, size: nat, after: seq<Byte>)
    requires SkipWord(bs, "xref") == Some(line) && NextToken(line) == Some(Lexed(TNumber(0), spaced))
    requires NextToken(spaced) == Some(Lexed(TNumber(size), eol)) && SkipEol(eol) == Some(after)
    ensures ReadHead(bs) == Some(Parsed(size, after))
  {
  }

  lemma HeadBytes(word: string, zero: string, number: string, after: seq<Byte>)
    ensures Encode(word + ("\n" + (zero + (" " + (number + "\n"))))) + after
            == Encode(word) + (Encode("\n") + (Encode(zero) + (Encode(" ") + (Encode(number) + (Encode("\n") + after)))))
  {
    SplitBytes(word, "\n" + (zero + (" " + (number + "\n"))), after);
    SplitBytes("\n", zero + (" " + (number + "\n")), after);
    SplitBytes(zero, " " + (number + "\n"), after);
    SplitBytes(" ", number + "\n", after);
    SplitBytes(number, "\n", after);
  }

  lemma SectionIsRead(offsets: seq<nat>, after: seq<Byte>) returns (entries: seq<Entry>)
    requires Fits(offsets)
    ensures var size := |offsets| + 1;
            ReadSection(Encode(XrefHead(size)) + (Encode(XrefTable(FREE_ENTRY, offsets)) + (Encode(Trailer(size)) + after)))
            == Some(Xref(entries, TrailerObj(size)))
    ensures Describes(entries, offsets)
  {
    var size, table := |offsets| + 1, Encode(XrefTable(FREE_ENTRY, offsets));
    FreeEntryIsRead();
    FirstEntry(Encode(FREE_ENTRY));
    TableIsRead(FREE_ENTRY, offsets);
    entries := ReadTable(table).value;
    var afterTable := Encode(Trailer(size)) + after;
    HeadIsRead(size, table + afterTable);
    SplitAt(table, afterTable);
    TrailerIsRead(size, entries, after);
  }

  lemma SplitAt(a: seq<Byte>, b: seq<Byte>)
    ensures (a + b)[..|a|] == a && (a + b)[|a|..] == b
  {
  }

  lemma LastLineParts(before: seq<Byte>, head: seq<Byte>, digits: seq<Byte>, text: string)
    requires |digits| > 0 && AllDigits(digits) && |head| > 0 && !IsDigitByte(head[|head| - 1])
    requires KeywordAt(head, 0, text) && |text| == |head|
    ensures ReadLastLine(before + (head + digits), text) == Some(ParseDecimal(digits))
  {
    var bs := before + (head + digits);
    assert (before + head)[|before + head| - 1] == head[|head| - 1];
    DigitRunAtEnd(before + head, digits);
    Regrouped(before, head, digits);
    KeywordInside(before, head, digits, text);
    LastLineAt(bs, |digits|, |before|, text);
  }

  lemma LastLineAt(bs: seq<Byte>, k: nat, p: nat, text: string)
    requires DigitsAtEnd(bs) == k > 0 && p + |text| + k == |bs| && KeywordAt(bs, p, text)
    ensures ReadLastLine(bs, text) == Some(ParseDecimal(bs[|bs| - k..]))
  {
  }

  lemma Regrouped(before: seq<Byte>, head: seq<Byte>, digits: seq<Byte>)
    ensures var bs := before + (head + digits);
            bs == before + head + digits && bs[|bs| - |digits|..] == digits
  {
  }

  lemma KeywordInside(before: seq<Byte>, head: seq<Byte>, after: seq<Byte>, text: string)
    requires KeywordAt(head, 0, text) && |text| == |head|
    ensures KeywordAt(before + (head + after), |before|, text)
  {
    assert forall i :: 0 <= i < |text| ==> (before + (head + after))[|before| + i] == head[i];
  }

  lemma LastLineIsRead(before: seq<Byte>, head: string, n: nat)
    requires IsAscii(head) && |head| > 0 && !('0' <= head[|head| - 1] <= '9')
    ensures ReadLastLine(before + (Encode(head) + Encode(Decimal(n))), head) == Some(n)
  {
    DecimalRoundTrip(n);
    EncodeAscii(head);
    LastLineParts(before, Encode(head), Encode(Decimal(n)), head);
  }

  lemma EndIsFound(front: seq<Byte>, end: string)
    requires IsAscii(end)
    ensures var bs := front + Encode(end);
            KeywordAt(bs, |bs| - |end|, end) && bs[..|bs| - |end|] == front
  {
  }

  lemma LineBytes(before: seq<Byte>, head: string, n: nat, end: string)
    ensures before + Encode(head + (Decimal(n) + end)) == (before + (Encode(head) + Encode(Decimal(n)))) + Encode(end)
  {
    EncodeConcat(head, Decimal(n) + end);
    EncodeConcat(Decimal(n), end);
  }

  lemma StartXrefIsRead(before: seq<Byte>, offset: nat)
    ensures ReadStartXref(before + Encode(StartXref(offset))) == Some(offset)
  {
    var head, end := "startxref\n", "\n%%EOF";
    assert StartXref(offset) == head + (Decimal(offset) + end);
    EndLineIsRead(before, head, offset, end);
  }

  lemma EndLineIsRead(before: seq<Byte>, head: string, n: nat, end: string)
    requires IsAscii(head) && |head| > 0 && !('0' <= head[|head| - 1] <= '9') && IsAscii(end)
    ensures var bs := before + Encode(head + (Decimal(n) + end));
            KeywordAt(bs, |bs| - |end|, end) && ReadLastLine(bs[..|bs| - |end|], head) == Some(n)
  {
    var line := before + (Encode(head) + Encode(Decimal(n)));
    LineBytes(before, head, n, end);
    assert before + Encode(head + (Decimal(n) + end)) == line + Encode(end);
    LastLineIsRead(before, head, n);
    EndIsFound(line, end);
  }

  lemma EncodeFive(a: string, b: string, c: string, d: string, e: string)
    ensures Encode(a + (b + (c + (d + e)))) == Encode(a) + (Encode(b) + (Encode(c) + (Encode(d) + Encode(e))))
  {
    EncodeConcat(a, b + (c + (d + e)));
    EncodeConcat(b, c + (d + e));
    EncodeConcat(c, d + e);
    EncodeConcat(d, e);
  }

  /** The bytes of a document, part by part. */
  lemma DocumentBytes(objects: seq<string>)
    ensures var size := |objects| + 1;
            var tail := Encode(Trailer(size)) + Encode(StartXref(Offset(objects, size)));
            Encode(Document(objects)) == Encode(Body(objects))
              + (Encode(XrefHead(size)) + (Encode(XrefTable(FREE_ENTRY, Offsets(objects))) + tail))
  {
    var size := |objects| + 1;
    EncodeFive(Body(objects), XrefHead(size), XrefTable(FREE_ENTRY, Offsets(objects)), Trailer(size),
               StartXref(Offset(objects, size)));
  }

  lemma XrefIsRead(objects: seq<string>)
    requires Fits(Offsets(objects))
    ensures ReadXref(Encode(Document(objects))).Some?
    ensures var xref := ReadXref(Encode(Document(objects))).value;
            xref.trailer == TrailerObj(|objects| + 1) && Describes(xref.entries, Offsets(objects))
  {
    var size := |objects| + 1;
    var bs := Encode(Document(objects));
    var end := Encode(StartXref(Offset(objects, size)));
    var head, table, trailer := Encode(XrefHead(size)), Encode(XrefTable(FREE_ENTRY, Offsets(objects))), Encode(Trailer(size));
    DocumentBytes(objects);
    assert objects[..|objects|] == objects;
    var body := Encode(Body(objects));
    var front := body + (head + (table + trailer));
    FrontAndRest(body, head, table, trailer, end);
    StartXrefIsRead(front, Offset(objects, size));
    var entries := SectionIsRead(Offsets(objects), end);
  }

  lemma FrontAndRest(body: seq<Byte>, head: seq<Byte>, table: seq<Byte>, trailer: seq<Byte>, end: seq<Byte>)
    ensures var bs := body + (head + (table + (trailer + end)));
            && bs == (body + (head + (table + trailer))) + end
            && bs[|body|..] == head + (table + (trailer + end))
  {
  }

  // ----- Objects are found at their offsets -----

  lemma BodyBytes(objects: seq<string>)
    requires |objects| > 0
    ensures Encode(Body(objects)) == Encode(Body(objects[..|objects| - 1])) + Encode(objects[|objects| - 1])
  {
    EncodeConcat(Body(objects[..|objects| - 1]), objects[|objects| - 1]);
  }

  lemma {:induction false} BodySplit(objects: seq<string>, i: nat) returns (rest: seq<Byte>)
    requires 1 <= i <= |objects|
    ensures Encode(Body(objects)) == Encode(Body(objects[..i - 1])) + (Encode(objects[i - 1]) + rest)
    decreases |objects|
  {
    var n := |objects| - 1;
    BodyBytes(objects);
    if i == |objects| {
      rest := [];
      assert Encode(objects[n]) + [] == Encode(objects[n]);
    } else {
      var r := BodySplit(objects[..n], i);
      assert objects[..n][..i - 1] == objects[..i - 1];
      rest := r + Encode(objects[n]);
      Regroup(Encode(Body(objects[..i - 1])), Encode(objects[i - 1]), r, Encode(objects[n]));
    }
  }

  lemma Regroup(a: seq<Byte>, b: seq<Byte>, c: seq<Byte>, d: seq<Byte>)
    ensures (a + (b + c)) + d == a + (b + (c + d))
  {
  }

  /** Every offset lies inside the body, so a short file has short offsets. */
  lemma ShortFileFits(objects: seq<string>)
    requires |Encode(Document(objects))| < 10_000_000_000
    ensures Fits(Offsets(objects))
  {
    forall i | 0 <= i < |objects| ensures Offsets(objects)[i] < 10_000_000_000 {
      OffsetInFile(objects, i + 1);
    }
  }

  lemma OffsetInFile(objects: seq<string>, i: nat)
    requires 1 <= i <= |objects|
    ensures Offset(objects, i) <= |Encode(Document(objects))|
  {
    var rest := ObjectBytes(objects, i);
  }

  /** What stands at an object's offset. */
  lemma ObjectBytes(objects: seq<string>, i: nat) returns (rest: seq<Byte>)
    requires 1 <= i <= |objects|
    ensures Offset(objects, i) <= |Encode(Document(objects))|
    ensures Encode(Document(objects))[Offset(objects, i)..] == Encode(objects[i - 1]) + rest
  {
    var r := BodySplit(objects, i);
    DocumentBytes(objects);
    var bs, body, front := Encode(Document(objects)), Encode(Body(objects)), Encode(Body(objects[..i - 1]));
    var after := bs[|body|..];
    rest := r + after;
    assert bs == body + after;
    DropFront(bs, front, Encode(objects[i - 1]), r, after);
  }

  lemma DropFront(bs: seq<Byte>, front: seq<Byte>, a: seq<Byte>, b: seq<Byte>, c: seq<Byte>)
    requires bs == (front + (a + b)) + c
    ensures bs[|front|..] == a + (b + c)
  {
  }

  lemma EntryOfObject(entries: seq<Entry>, objects: seq<string>, i: nat)
    requires Describes(entries, Offsets(objects)) && 1 <= i <= |objects|
    ensures |entries| == |objects| + 1 && entries[i] == Entry(Offset(objects, i), 0, true)
  {
  }

  // ----- Objects are fetched -----

  /** The number, generation and keyword in front of an object. */
  lemma HeaderIsRead(i: nat, zero: string, word: string, body: string, rest: seq<Byte>)
    requires zero == Decimal(0) && word == "obj" && IsWord(word)
    ensures ReadObject(Encode(Decimal(i) + (" " + (zero + (" " + (word + ("\n" + body)))))) + rest, i, 0)
            == ParseValue(Encode(body) + rest)
  {
    var line := Encode("\n") + (Encode(body) + rest);
    var spaced := Encode(" ") + (Encode(word) + line);
    var tail := Encode(" ") + (Encode(zero) + spaced);
    HeaderBytes(i, zero, word, body, rest);
    LineEndIsSkipped(Encode(body) + rest);
    SpaceThenWord(word, Encode(body) + rest);
    SpaceThenNumber(0, Encode(word) + line);
    Front(" ", 32, Encode(zero) + spaced);
    PdfObjects.NumberIsRead(i, tail);
    HeaderTokens(Encode(Decimal(i)) + tail, tail, spaced, line, i);
  }

  lemma SpaceThenWord(word: string, rest: seq<Byte>)
    requires IsWord(word)
    ensures SkipWord(Encode(" ") + (Encode(word) + (Encode("\n") + rest)), word) == Some(Encode("\n") + rest)
  {
    SpaceIsSkipped(Encode(word) + (Encode("\n") + rest));
    WordOfLine(word, rest);
  }

  lemma SpaceThenNumber(n: nat, rest: seq<Byte>)
    ensures NextToken(Encode(" ") + (Encode(Decimal(n)) + (Encode(" ") + rest)))
            == Some(Lexed(TNumber(n), Encode(" ") + rest))
  {
    Front(" ", 32, rest);
    SpacedNumber(n, Encode(" ") + rest);
  }

  lemma HeaderTokens(bs: seq<Byte>, tail: seq<Byte>, spaced: seq<Byte>, line: seq<Byte>, i: nat)
    requires NextToken(bs) == Some(Lexed(TNumber(i), tail)) && NextToken(tail) == Some(Lexed(TNumber(0), spaced))
    requires SkipWord(spaced, "obj") == Some(line)
    ensures ReadObject(bs, i, 0) == ParseValue(line)
  {
  }

  lemma HeaderBytes(i: nat, zero: string, word: string, body: string, rest: seq<Byte>)
    ensures Encode(Decimal(i) + (" " + (zero + (" " + (word + ("\n" + body)))))) + rest
            == Encode(Decimal(i)) + (Encode(" ") + (Encode(zero) + (Encode(" ")
                 + (Encode(word) + (Encode("\n") + (Encode(body) + rest))))))
  {
    SplitBytes(Decimal(i), " " + (zero + (" " + (word + ("\n" + body)))), rest);
    SplitBytes(" ", zero + (" " + (word + ("\n" + body))), rest);
    SplitBytes(zero, " " + (word + ("\n" + body)), rest);
    SplitBytes(" ", word + ("\n" + body), rest);
    SplitBytes(word, "\n" + body, rest);
    SplitBytes("\n", body, rest);
  }

  lemma NameText(body: string)
    ensures NAME + body == " " + ("0" + (" " + ("obj" + ("\n" + body))))
  {
    assert NAME == " " + ("0" + (" " + ("obj" + "\n")));
  }

  lemma ObjIsWord()
    ensures IsWord("obj")
  {
  }

  lemma ObjectIsFetched(objects: seq<string>, xref: Xref, i: nat, body: string) returns (rest: seq<Byte>)
    requires 1 <= i <= |objects| && Describes(xref.entries, Offsets(objects))
    requires objects[i - 1] == Object(Decimal(i), body)
    ensures Fetch(Encode(Document(objects)), xref, Some(Ref(i, 0))) == ParseValue(Encode(body + END_OBJECT) + rest)
  {
    rest := ObjectBytes(objects, i);
    NameText(body + END_OBJECT);
    assert Decimal(0) == "0";
    ObjIsWord();
    HeaderIsRead(i, "0", "obj", body + END_OBJECT, rest);
    EntryOfObject(xref.entries, objects, i);
  }

  lemma EndObjectIsRead(rest: seq<Byte>)
    ensures SkipWord(Encode(END_OBJECT) + rest, "endobj").Some? && Stops(Encode(END_OBJECT) + rest)
  {
    assert END_OBJECT == "\n" + ("endobj" + "\n");
    LineWithWord("endobj", rest);
  }

  lemma LineWithWord(word: string, rest: seq<Byte>)
    requires IsWord(word)
    ensures SkipWord(Encode("\n" + (word + "\n")) + rest, word) == Some(Encode("\n") + rest)
    ensures Stops(Encode("\n" + (word + "\n")) + rest)
  {
    SplitBytes("\n", word + "\n", rest);
    SplitBytes(word, "\n", rest);
    LineEndIsSkipped(Encode(word) + (Encode("\n") + rest));
    WordOfLine(word, rest);
  }

  lemma DictIsFetched(objects: seq<string>, xref: Xref, i: nat, o: Obj, kind: string)
    requires 1 <= i <= |objects| && Describes(xref.entries, Offsets(objects))
    requires WellFormed(o) && Get(o, "Type") == Some(Name(kind)) && objects[i - 1] == Object(Decimal(i), Print(o))
    ensures FetchDict(Encode(Document(objects)), xref, Some(Ref(i, 0)), kind) == Some(o)
  {
    var rest := ObjectIsFetched(objects, xref, i, Print(o));
    ObjectThenText(o, END_OBJECT, rest);
    EndObjectIsRead(rest);
  }

  /** `/Length` counts exactly the bytes between the line of `stream` and `endstream`. */
  lemma StreamIsRead(content: string, end: string, rest: seq<Byte>)
    requires end == END_STREAM + END_OBJECT
    ensures ReadData(Encode(STREAM + (content + end)) + rest, Some(Int(|Encode(content)|))) == Some(Encode(content))
  {
    StreamLine("stream", content + end, rest);
    assert STREAM == "\n" + ("stream" + "\n");
    SplitBytes(content, end, rest);
    SplitAt(Encode(content), Encode(end) + rest);
    StreamEnds(rest);
  }

  lemma StreamLine(word: string, data: string, rest: seq<Byte>)
    requires IsWord(word)
    ensures SkipWord(Encode("\n" + (word + "\n") + data) + rest, word).Some?
    ensures SkipEol(SkipWord(Encode("\n" + (word + "\n") + data) + rest, word).value) == Some(Encode(data) + rest)
  {
    SplitBytes("\n" + (word + "\n"), data, rest);
    LineWithWord(word, Encode(data) + rest);
    EolIsSkipped(Encode(data) + rest);
  }

  lemma StreamEnds(rest: seq<Byte>)
    ensures EndsStream(Encode(END_STREAM + END_OBJECT) + rest)
  {
    SplitBytes(END_STREAM, END_OBJECT, rest);
    EndObjectIsRead(rest);
    EndStreamIsRead(Encode(END_OBJECT) + rest);
  }

  lemma EndStreamIsRead(rest: seq<Byte>)
    requires Stops(rest)
    ensures SkipWord(Encode(END_STREAM) + rest, "endstream") == Some(rest)
  {
    assert END_STREAM == "\n" + "endstream";
    WordOnLine("endstream", rest);
  }

  lemma ContentIsFetched(objects: seq<string>, xref: Xref, textOps: string)
    requires |objects| >= 4 && Describes(xref.entries, Offsets(objects)) && objects[3] == Object("4", StreamBody(textOps))
    ensures FetchStream(Encode(Document(objects)), xref, Some(Ref(4, 0))) == Some(Encode(textOps))
  {
    assert Decimal(4) == "4";
    var n := |Encode(textOps)|;
    var rest := ObjectIsFetched(objects, xref, 4, StreamBody(textOps));
    var end := END_STREAM + END_OBJECT;
    StreamBodyText(StreamDict(n), STREAM, textOps, END_STREAM, END_OBJECT);
    StreamText(n);
    SizesAreWellFormed(n);
    ObjectThenText(StreamObj(n), STREAM + (textOps + end), rest);
    StreamIsRead(textOps, end, rest);
    SizeKeys(n);
  }

  lemma StreamBodyText(a: string, b: string, c: string, d: string, e: string)
    ensures a + (b + (c + d)) + e == a + (b + (c + (d + e)))
  {
  }

  // ----- The page shows the lines -----

  function ShownText(line: string): seq<Byte> {
    NormalizeEol(Encode(line), false)
  }

  /** Line i is alone on its line, 14 units below the line before, in the font F1 at 11. */
  function ShownLine(i: nat, line: string): Shown {
    Shown(ShownText(line), "F1", 11, 50, 780 - 14 * i, 0)
  }

  function ShownLines(lines: seq<string>): seq<Shown> {
    seq(|lines|, i requires 0 <= i < |lines| => ShownLine(i, lines[i]))
  }

  const FONT_TOKENS := [TWord("BT"), TName("F1"), TNumber(11), TWord("Tf")]
  const LEADING_TOKENS := [TNumber(14), TWord("TL"), TNumber(50), TNumber(780), TWord("Td")]

  /** Inside the text object with the font set, at the start of line i. */
  function AtLine(i: nat): Pen {
    Pen(true, Some("F1"), 11, 14, 50, 780 - 14 * i, 0, [])
  }

  /** After n lines have been shown. */
  function Written(n: nat): Pen {
    if n == 0 then AtLine(0) else AtLine(n - 1).(onLine := 1)
  }

  lemma TokenFirst(t: Token, ts: seq<Token>, text: string)
    requires text == " " + TokenText(t)
    ensures Spaced([t] + ts) == text + Spaced(ts)
  {
    SpacedFirst(t, ts);
    Joined(" ", TokenText(t), text, Spaced(ts));
  }

  lemma SpacedFirst(t: Token, ts: seq<Token>)
    ensures Spaced([t] + ts) == " " + (TokenText(t) + Spaced(ts))
  {
    assert ([t] + ts)[1..] == ts;
  }

  lemma NumberText(a: nat, b: nat)
    requires 0 < a < 10 && b < 10
    ensures TokenText(TNumber(10 * a + b)) == [Digit(a), Digit(b)]
  {
    AppendDigit(a, b);
    assert Decimal(a) == [Digit(a)];
  }

  lemma LeadingText()
    ensures Spaced(LEADING_TOKENS) == SET_LEADING
  {
    NumberText(1, 4);
    NumberText(5, 0);
    ThreeDigits(7, 8, 0, 780, "780");
    TokenFirst(TWord("Td"), [], " Td");
    TokenFirst(TNumber(780), [TWord("Td")], " 780");
    TokenFirst(TNumber(50), [TNumber(780), TWord("Td")], " 50");
    TokenFirst(TWord("TL"), [TNumber(50), TNumber(780), TWord("Td")], " TL");
    TokenFirst(TNumber(14), [TWord("TL"), TNumber(50), TNumber(780), TWord("Td")], " 14");
    assert [TWord("Td")] + [] == [TWord("Td")] && " Td" + Spaced([]) == " Td";
  }

  lemma FontTokensText(others: seq<Token>)
    ensures Spaced(FONT_TOKENS + others) == " BT" + (" /F1" + (" 11" + (" Tf" + Spaced(others))))
  {
    NumberText(1, 1);
    TokenFirst(TWord("Tf"), others, " Tf");
    TokenFirst(TNumber(11), [TWord("Tf")] + others, " 11");
    TokenFirst(TName("F1"), [TNumber(11)] + ([TWord("Tf")] + others), " /F1");
    TokenFirst(TWord("BT"), [TName("F1")] + ([TNumber(11)] + ([TWord("Tf")] + others)), " BT");
    assert FONT_TOKENS + others == [TWord("BT")] + ([TName("F1")] + ([TNumber(11)] + ([TWord("Tf")] + others)));
  }

  lemma BeginText()
    ensures " " + BEGIN_TEXT == Spaced(FONT_TOKENS + LEADING_TOKENS)
  {
    FontTokensText(LEADING_TOKENS);
    LeadingText();
    Joined(" ", "BT", " BT", " /F1" + (" 11" + (" Tf" + SET_LEADING)));
  }

  lemma Joined(a: string, b: string, both: string, tail: string)
    requires both == a + b
    ensures a + (b + tail) == both + tail
  {
  }

  lemma PlainTokens()
    ensures forall i :: 0 <= i < |FONT_TOKENS| ==> IsPlain(FONT_TOKENS[i]) && FONT_TOKENS[i] != TWord("Tj")
    ensures forall i :: 0 <= i < |LEADING_TOKENS| ==> IsPlain(LEADING_TOKENS[i]) && LEADING_TOKENS[i] != TWord("Tj")
  {
  }

  lemma ExecuteFirst(pen: Pen, t: Token, ts: seq<Token>)
    ensures ExecuteAll(pen, [t] + ts) == ExecuteAll(Execute(pen, t), ts)
  {
    assert ([t] + ts)[1..] == ts;
  }

  /** The font is set, the leading and the line are not. */
  const FONT_SET := Pen(true, Some("F1"), 11, 0, 0, 0, 0, [])

  lemma BeginIsExecuted()
    ensures ExecuteAll(START, FONT_TOKENS + LEADING_TOKENS) == AtLine(0)
  {
    var a := Execute(START, TWord("BT"));
    var b := Execute(a, TName("F1"));
    var c := Execute(b, TNumber(11));
    var three := [TWord("Tf")] + LEADING_TOKENS;
    var two := [TNumber(11)] + three;
    var one := [TName("F1")] + two;
    assert FONT_TOKENS + LEADING_TOKENS == [TWord("BT")] + one;
    ExecuteFirst(START, TWord("BT"), one);
    ExecuteFirst(a, TName("F1"), two);
    ExecuteFirst(b, TNumber(11), three);
    ExecuteFirst(c, TWord("Tf"), LEADING_TOKENS);
    FontIsSet();
    LeadingIsExecuted();
  }

  lemma FontIsSet()
    ensures Execute(Execute(Execute(Execute(START, TWord("BT")), TName("F1")), TNumber(11)), TWord("Tf")) == FONT_SET
  {
  }

  lemma LeadingIsExecuted()
    ensures ExecuteAll(FONT_SET, LEADING_TOKENS) == AtLine(0)
  {
    var led := FONT_SET.(leading := 14);
    ExecuteFirst(FONT_SET, TNumber(14), LEADING_TOKENS[1..]);
    ExecuteFirst(Execute(FONT_SET, TNumber(14)), TWord("TL"), LEADING_TOKENS[2..]);
    assert Execute(Execute(FONT_SET, TNumber(14)), TWord("TL")) == led;
    ExecuteFirst(led, TNumber(50), LEADING_TOKENS[3..]);
    ExecuteFirst(Execute(led, TNumber(50)), TNumber(780), LEADING_TOKENS[4..]);
    ExecuteFirst(Execute(Execute(led, TNumber(50)), TNumber(780)), TWord("Td"), []);
  }

  lemma BeginIsShown(rest: seq<Byte>, fonts: set<string>)
    requires Stops(rest)
    ensures Show(Encode(BEGIN_TEXT) + rest, START, fonts) == Show(rest, Written(0), fonts)
  {
    var ts := FONT_TOKENS + LEADING_TOKENS;
    SpaceBeforeText(BEGIN_TEXT, rest, START, fonts);
    BeginText();
    PlainTokens();
    SpacedIsExecuted(ts, rest, START, fonts);
    BeginIsExecuted();
  }

  lemma SpaceBeforeText(text: string, rest: seq<Byte>, pen: Pen, fonts: set<string>)
    ensures Show(Encode(" " + text) + rest, pen, fonts) == Show(Encode(text) + rest, pen, fonts)
    ensures Stops(Encode(" " + text) + rest)
  {
    SplitBytes(" ", text, rest);
    SpaceShowsNothing(Encode(text) + rest, pen, fonts);
    Front(" ", 32, Encode(text) + rest);
  }

  /** The next line is started: the first is already. */
  lemma MoveIsExecuted(i: nat, text: string, rest: seq<Byte>, fonts: set<string>)
    ensures var bs := Encode((if i == 0 then " " else " T* ") + text) + rest;
            Stops(bs) && Show(bs, Written(i), fonts) == Show(Encode(text) + rest, AtLine(i), fonts)
  {
    if i == 0 {
      SpaceBeforeText(text, rest, AtLine(0), fonts);
    } else {
      Joined(" T*", " ", " T* ", text);
      SpaceBeforeText(text, rest, AtLine(i), fonts);
      WordThenText("T*", " T*", " " + text, rest, Written(i), fonts);
      StarMovesDown(i);
    }
  }

  lemma StarMovesDown(i: nat)
    requires i > 0
    ensures Execute(Written(i), TWord("T*")) == AtLine(i)
  {
  }

  lemma WordThenText(word: string, spaced: string, text: string, rest: seq<Byte>, pen: Pen, fonts: set<string>)
    requires IsWord(word) && word != "Tj" && spaced == " " + word && Stops(Encode(text) + rest)
    ensures Stops(Encode(spaced + text) + rest)
    ensures Show(Encode(spaced + text) + rest, pen, fonts) == Show(Encode(text) + rest, Execute(pen, TWord(word)), fonts)
  {
    SplitBytes(spaced, text, rest);
    WordIsExecuted(word, spaced, Encode(text) + rest, pen, fonts);
  }

  /** A word that shows nothing, behind a space. */
  lemma WordIsExecuted(word: string, spaced: string, rest: seq<Byte>, pen: Pen, fonts: set<string>)
    requires IsWord(word) && word != "Tj" && spaced == " " + word && Stops(rest)
    ensures Show(Encode(spaced) + rest, pen, fonts) == Show(rest, Execute(pen, TWord(word)), fonts)
    ensures Stops(Encode(spaced) + rest)
  {
    SpaceBeforeText(word, rest, pen, fonts);
    WordIsRead(word, rest);
    TokenIsExecuted(Encode(word) + rest, pen, fonts);
  }

  lemma ShowIsExecuted(i: nat, text: seq<Byte>, rest: seq<Byte>, fonts: set<string>)
    requires Stops(rest) && "F1" in fonts
    ensures Show(Encode(" Tj") + rest, Hold(AtLine(i), TextOperand(text)), fonts)
            == Before(Shown(text, "F1", 11, 50, 780 - 14 * i, 0), Show(rest, Written(i + 1), fonts))
  {
    var pen := Hold(AtLine(i), TextOperand(text));
    assert " Tj" == " " + "Tj";
    SpaceBeforeText("Tj", rest, pen, fonts);
    WordIsRead("Tj", rest);
    TokenIsExecuted(Encode("Tj") + rest, pen, fonts);
    TextIsShown(i, text);
  }

  lemma TextIsShown(i: nat, text: seq<Byte>)
    ensures var pen := Hold(AtLine(i), TextOperand(text));
            && IsText(pen.operands) && ShownBy(pen) == Shown(text, "F1", 11, 50, 780 - 14 * i, 0)
            && Execute(pen, TWord("Tj")) == Written(i + 1)
  {
  }

  lemma TextOpIsShown(i: nat, line: string, rest: seq<Byte>, fonts: set<string>)
    requires Stops(rest) && "F1" in fonts
    ensures Stops(Encode(TextOp(i, line)) + rest)
    ensures Show(Encode(TextOp(i, line)) + rest, Written(i), fonts)
            == Before(ShownLine(i, line), Show(rest, Written(i + 1), fonts))
  {
    var literal := "(" + EscapePdfString(line) + ")";
    var move := if i == 0 then " " else " T* ";
    AppendIsAssociative(move, literal, " Tj");
    MoveIsExecuted(i, literal + " Tj", rest, fonts);
    SplitBytes(literal, " Tj", rest);
    LiteralIsHeld(line, Encode(" Tj") + rest, AtLine(i), fonts);
    ShowIsExecuted(i, ShownText(line), rest, fonts);
  }

  /** The strings shown so far, in front of those still to come. */
  function After(shown: seq<Shown>, more: Option<seq<Shown>>): Option<seq<Shown>> {
    if more.None? then None else Some(shown + more.value)
  }

  /** The text opens a text object with the font F1 and its first line. */
  ghost predicate Opens(begin: string, fonts: set<string>) {
    forall rest :: Stops(rest) ==> Show(Encode(begin) + rest, START, fonts) == Show(rest, Written(0), fonts)
  }

  lemma {:induction false} LinesAreShown(begin: string, lines: seq<string>, rest: seq<Byte>, fonts: set<string>)
    requires Opens(begin, fonts) && Stops(rest) && "F1" in fonts
    ensures Show(Encode(ShowLines(begin, lines)) + rest, START, fonts)
            == After(ShownLines(lines), Show(rest, Written(|lines|), fonts))
    decreases |lines|
  {
    if |lines| == 0 {
      NoneShown(Show(rest, Written(0), fonts));
    } else {
      var before, line := lines[..|lines| - 1], lines[|lines| - 1];
      TextOpIsShown(|before|, line, rest, fonts);
      LinesAreShown(begin, before, Encode(TextOp(|before|, line)) + rest, fonts);
      OneMoreLine(lines, Show(rest, Written(|lines|), fonts));
      LastOpBytes(begin, lines, rest);
    }
  }

  lemma LastOpBytes(begin: string, lines: seq<string>, rest: seq<Byte>)
    requires |lines| > 0
    ensures var n := |lines| - 1;
            Encode(ShowLines(begin, lines)) + rest
            == Encode(ShowLines(begin, lines[..n])) + (Encode(TextOp(n, lines[n])) + rest)
  {
    var n := |lines| - 1;
    SplitBytes(ShowLines(begin, lines[..n]), TextOp(n, lines[n]), rest);
  }

  lemma NoneShown(more: Option<seq<Shown>>)
    ensures After(ShownLines([]), more) == more
  {
    assert more.Some? ==> ShownLines([]) + more.value == more.value;
  }

  lemma OneMoreLine(lines: seq<string>, more: Option<seq<Shown>>)
    requires |lines| > 0
    ensures var n := |lines| - 1;
            After(ShownLines(lines[..n]), Before(ShownLine(n, lines[n]), more)) == After(ShownLines(lines), more)
  {
    var n := |lines| - 1;
    var shown, last := ShownLines(lines[..n]), ShownLine(n, lines[n]);
    assert ShownLines(lines) == shown + [last];
    assert more.Some? ==> shown + ([last] + more.value) == shown + [last] + more.value;
  }

  lemma EndIsShown(n: nat, fonts: set<string>)
    ensures Show(Encode(" ET") + [], Written(n), fonts) == Some([])
  {
    WordIsExecuted("ET", " ET", [], Written(n), fonts);
  }

  /** Interpreting the content stream shows the lines in order, line i at (50, 780 - 14 i). */
  lemma ContentIsShown(lines: seq<string>, fonts: set<string>)
    requires "F1" in fonts
    ensures Show(Encode(TextOps(lines)), START, fonts) == Some(ShownLines(lines))
  {
    AllIsShown(BEGIN_TEXT, lines, " ET", fonts) by {
      forall rest | Stops(rest) ensures Show(Encode(BEGIN_TEXT) + rest, START, fonts) == Show(rest, Written(0), fonts) {
        BeginIsShown(rest, fonts);
      }
      EndIsShown(|lines|, fonts);
    }
  }

  lemma AllIsShown(begin: string, lines: seq<string>, end: string, fonts: set<string>)
    requires "F1" in fonts && Opens(begin, fonts) && end != "" && end[0] == ' '
    requires Show(Encode(end) + [], Written(|lines|), fonts) == Some([])
    ensures Show(Encode(ShowLines(begin, lines) + end), START, fonts) == Some(ShownLines(lines))
  {
    LinesAreShown(begin, lines, Encode(end) + [], fonts);
    SplitBytes(ShowLines(begin, lines), end, []);
    assert Encode(ShowLines(begin, lines) + end) + [] == Encode(ShowLines(begin, lines) + end);
    assert ShownLines(lines) + [] == ShownLines(lines);
  }

  // ----- The whole file -----

  /** Entry i of the table of a document gives the byte where object i stands, when the file is short enough. */
  lemma XrefLocatesObjects(objects: seq<string>, i: nat) returns (rest: seq<Byte>)
    requires |Encode(Document(objects))| < 10_000_000_000 && 1 <= i <= |objects|
    ensures ReadXref(Encode(Document(objects))).Some?
    ensures var entries := ReadXref(Encode(Document(objects))).value.entries;
            && |entries| == |objects| + 1 && entries[i].inUse
            && 0 <= entries[i].offset <= |Encode(Document(objects))|
            && Encode(Document(objects))[entries[i].offset..] == Encode(objects[i - 1]) + rest
  {
    ShortFileFits(objects);
    XrefIsRead(objects);
    rest := ObjectBytes(objects, i);
    EntryOfObject(ReadXref(Encode(Document(objects))).value.entries, objects, i);
  }

  lemma CatalogIsFetched(objects: seq<string>, xref: Xref)
    requires |objects| == 5 && objects[0] == Object("1", CATALOG) && Describes(xref.entries, Offsets(objects))
    ensures FetchDict(Encode(Document(objects)), xref, Some(Ref(1, 0)), "Catalog") == Some(CATALOG_OBJ)
  {
    assert Decimal(1) == "1";
    CatalogText();
    CatalogIsWellFormed();
    CatalogKeys();
    DictIsFetched(objects, xref, 1, CATALOG_OBJ, "Catalog");
  }

  lemma PagesAreFetched(objects: seq<string>, xref: Xref)
    requires |objects| == 5 && objects[1] == Object("2", PAGES) && Describes(xref.entries, Offsets(objects))
    ensures FetchDict(Encode(Document(objects)), xref, Some(Ref(2, 0)), "Pages") == Some(PAGES_OBJ)
  {
    assert Decimal(2) == "2";
    PagesText();
    PagesIsWellFormed();
    PagesKeys();
    DictIsFetched(objects, xref, 2, PAGES_OBJ, "Pages");
  }

  lemma PageIsFetched(objects: seq<string>, xref: Xref)
    requires |objects| == 5 && objects[2] == Object("3", PAGE) && Describes(xref.entries, Offsets(objects))
    ensures FetchDict(Encode(Document(objects)), xref, Some(Ref(3, 0)), "Page") == Some(PAGE_OBJ)
  {
    assert Decimal(3) == "3";
    PageText();
    PageIsWellFormed();
    PageKeys();
    DictIsFetched(objects, xref, 3, PAGE_OBJ, "Page");
  }

  lemma FontIsFetched(objects: seq<string>, xref: Xref)
    requires |objects| == 5 && objects[4] == Object("5", FONT) && Describes(xref.entries, Offsets(objects))
    ensures "F1" in Fonts(Encode(Document(objects)), xref, PAGE_OBJ)
  {
    assert Decimal(5) == "5";
    FontText();
    FontIsWellFormed();
    FontKeys();
    DictIsFetched(objects, xref, 5, FONT_OBJ, "Font");
    PageKeys();
    assert Pair("F1", Ref(5, 0)) in FONTS_OBJ.pairs;
  }

  lemma PageIsRead(objects: seq<string>, xref: Xref, lines: seq<string>)
    requires |objects| == 5 && Describes(xref.entries, Offsets(objects))
    requires objects[3] == Object("4", StreamBody(TextOps(lines))) && objects[4] == Object("5", FONT)
    ensures ReadPage(Encode(Document(objects)), xref, PAGE_OBJ) == Some(ShownLines(lines))
  {
    PageKeys();
    ContentIsFetched(objects, xref, TextOps(lines));
    FontIsFetched(objects, xref);
    ContentIsShown(lines, Fonts(Encode(Document(objects)), xref, PAGE_OBJ));
  }

  lemma TextIsReached(objects: seq<string>, lines: seq<string>)
    requires |objects| == 5 && Fits(Offsets(objects))
    requires objects[0] == Object("1", CATALOG) && objects[1] == Object("2", PAGES) && objects[2] == Object("3", PAGE)
    requires objects[3] == Object("4", StreamBody(TextOps(lines))) && objects[4] == Object("5", FONT)
    ensures ReadPdf(Encode(Document(objects))) == Some(ShownLines(lines))
  {
    var bs := Encode(Document(objects));
    XrefIsRead(objects);
    var xref := ReadXref(bs).value;
    CatalogIsFetched(objects, xref);
    PagesAreFetched(objects, xref);
    PageIsFetched(objects, xref);
    PageIsRead(objects, xref, lines);
    SizeKeys(|objects| + 1);
    CatalogKeys();
    FirstPageIsRead(bs, xref, ShownLines(lines));
  }

  lemma FirstPageIsRead(bs: seq<Byte>, xref: Xref, shown: seq<Shown>)
    requires FetchDict(bs, xref, Some(Ref(3, 0)), "Page") == Some(PAGE_OBJ)
    requires ReadPage(bs, xref, PAGE_OBJ) == Some(shown)
    ensures ReadFirstPage(bs, xref, Some(Ref(2, 0)), PAGES_OBJ) == Some(shown)
  {
    PagesKeys();
    PageKeys();
  }

  /** Reading the finished file from its end gives back the lines of the invoice. */
  lemma InvoiceIsRead(objects: seq<string>, lines: seq<string>)
    requires objects == Objects(TextOps(lines)) && |Encode(Document(objects))| < 10_000_000_000
    ensures ReadPdf(Encode(Document(objects))) == Some(ShownLines(lines))
  {
    ShortFileFits(objects);
    TextIsReached(objects, lines);
  }

  /** Two lines without carriage returns are shown alike only if they are the same line. */
  lemma ShownTextIdentifiesLine(a: string, b: string)
    requires !HasCr(a) && !HasCr(b)
    ensures ShownText(a) == ShownText(b) <==> a == b
  {
    RoundTripIffNoCr(a);
    RoundTripIffNoCr(b);
    if ShownText(a) == ShownText(b) {
      EncodeIsInjective(a, b);
    }
  }

  // ----- The builder -----

  method ShowAll(begin: string, lines: seq<string>) returns (textOps: string)
    ensures textOps == ShowLines(begin, lines)
  {
    textOps := begin;
    for i := 0 to |lines|
      invariant textOps == ShowLines(begin, lines[..i])
    {
      textOps := textOps + TextOp(i, lines[i]);
      assert lines[..i + 1][..i] == lines[..i];
    }
    assert lines[..|lines|] == lines;
  }

  method PlaceObjects(objects: seq<string>) returns (pdf: string, offsets: seq<nat>)
    ensures pdf == Body(objects) && offsets == Offsets(objects)
  {
    pdf, offsets := HEADER, [];
    for i := 0 to |objects|
      invariant pdf == Body(objects[..i])
      invariant offsets == Offsets(objects)[..i]
    {
      offsets := offsets + [|Encode(pdf)|];
      pdf := pdf + objects[i];
      assert objects[..i + 1][..i] == objects[..i];
    }
    assert objects[..|objects|] == objects;
  }

  lemma TableGrowsAt(first: string, offsets: seq<nat>, i: nat)
    requires i < |offsets|
    ensures XrefTable(first, offsets[..i + 1]) == XrefTable(first, offsets[..i]) + XrefEntry(offsets[i])
  {
    assert offsets[..i + 1][..i] == offsets[..i];
  }

  method ListEntries(first: string, offsets: seq<nat>) returns (table: string)
    ensures table == XrefTable(first, offsets)
  {
    table := first;
    for i := 0 to |offsets|
      invariant table == XrefTable(first, offsets[..i])
    {
      table := table + XrefEntry(offsets[i]);
      TableGrowsAt(first, offsets, i);
    }
    assert offsets[..|offsets|] == offsets;
  }

  method WriteDocument(objects: seq<string>) returns (pdf: string)
    ensures pdf == Document(objects)
  {
    var body, offsets := PlaceObjects(objects);
    var size, xrefOffset := |objects| + 1, |Encode(body)|;
    assert objects[..|objects|] == objects;
    var head := XrefHead(size);
    var table := ListEntries(FREE_ENTRY, offsets);
    var trailer, end := Trailer(size), StartXref(xrefOffset);
    pdf := body + head + table + trailer + end;
    RegroupFive(body, head, table, trailer, end);
  }

  lemma RegroupFive(a: string, b: string, c: string, d: string, e: string)
    ensures a + b + c + d + e == a + (b + (c + (d + e)))
  {
  }

  lemma HeaderText()
    ensures KeywordAt(Encode(HEADER), 0, HEADER)
  {
    EncodeAscii(HEADER);
  }

  lemma KeywordStays(bs: seq<Byte>, more: seq<Byte>, text: string)
    requires KeywordAt(bs, 0, text)
    ensures KeywordAt(bs + more, 0, text)
  {
  }

  lemma {:induction false} BodyHasHeader(objects: seq<string>)
    ensures KeywordAt(Encode(Body(objects)), 0, HEADER)
    decreases |objects|
  {
    if |objects| == 0 {
      HeaderText();
    } else {
      var n := |objects| - 1;
      BodyHasHeader(objects[..n]);
      EncodeConcat(Body(objects[..n]), objects[n]);
      KeywordStays(Encode(Body(objects[..n])), Encode(objects[n]), HEADER);
    }
  }

  lemma DocumentHasHeader(objects: seq<string>)
    ensures KeywordAt(Encode(Document(objects)), 0, HEADER)
  {
    BodyHasHeader(objects);
    var size := |objects| + 1;
    var after := XrefHead(size) + (XrefTable(FREE_ENTRY, Offsets(objects)) + (Trailer(size) + StartXref(Offset(objects, size))));
    EncodeConcat(Body(objects), after);
    KeywordStays(Encode(Body(objects)), Encode(after), HEADER);
  }

  method BuildInvoicePdf(input: InvoicePdfInput) returns (buffer: seq<Byte>)
    ensures |buffer| < 10_000_000_000 ==>
              ReadPdf(buffer) == Some(ShownLines(
                [ "RE-OS Tax Invoice", "Invoice: " + input.invoiceNumber, "Organization: " + input.organizationName,
                  "Plan: " + input.planName, "Issued: " + input.issuedOn, "Subtotal: " + input.subtotalText,
                  "GST (18%): " + input.taxText, "Total: " + input.totalText ]))
    ensures KeywordAt(buffer, 0, "%PDF-1.4\n") && buffer == Encode(Document(Objects(TextOps(Lines(input)))))
  {
    var lines := Lines(input);
    var textOps := ShowAll(BEGIN_TEXT, lines);
    textOps := textOps + " ET";
    var pdf := WriteDocument(Objects(textOps));
    buffer := Encode(pdf);
    DocumentHasHeader(Objects(textOps));
    if |buffer| < 10_000_000_000 {
      InvoiceIsRead(Objects(textOps), lines);
    }
  }
}
