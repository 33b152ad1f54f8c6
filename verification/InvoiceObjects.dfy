/** The dictionaries of the invoice PDF: the text that is written, and the objects a reader makes of it. */
module InvoiceObjects {
  import opened Common
  import opened Utf8
  import opened PdfObjects

  // ----- What is written -----

  const CATALOG := "<<" + (" /Type /Catalog" + (" /Pages 2 0 R" + " >>"))
  const PAGES := "<<" + (" /Type /Pages" + (" /Kids [3 0 R]" + (" /Count 1" + " >>")))
  const PAGE :=
    "<<" + (" /Type /Page" + (" /Parent 2 0 R" + (" /MediaBox [0 0 612 792]" + (" /Contents 4 0 R" + (RESOURCES + " >>")))))
  const RESOURCES := " /Resources" + (" <<" + (" /Font" + (" <<" + (" /F1 5 0 R" + " >>") + " >>")))
  const FONT := "<<" + (" /Type /Font" + (" /Subtype /Type1" + (" /BaseFont /Helvetica" + " >>")))

  function StreamDict(length: nat): string {
    "<< /Length " + (Decimal(length) + " >>")
  }

  function TrailerDict(size: nat): string {
    "<< /Size " + (Decimal(size) + (" /Root 1 0 R" + " >>"))
  }

  // ----- What it stands for -----

  const CATALOG_OBJ := Dict([Pair("Type", Name("Catalog")), Pair("Pages", Ref(2, 0))])

  const PAGES_OBJ := Dict([Pair("Type", Name("Pages")), Pair("Kids", Arr([Ref(3, 0)])), Pair("Count", Int(1))])

  const FONTS_OBJ := Dict([Pair("F1", Ref(5, 0))])

  const RESOURCES_OBJ := Dict([Pair("Font", FONTS_OBJ)])

  const MEDIA_BOX := Arr([Int(0), Int(0), Int(612), Int(792)])

  const PAGE_OBJ := Dict([Pair("Type", Name("Page")), Pair("Parent", Ref(2, 0)), Pair("MediaBox", MEDIA_BOX),
                          Pair("Contents", Ref(4, 0)), Pair("Resources", RESOURCES_OBJ)])

  const FONT_OBJ :=
    Dict([Pair("Type", Name("Font")), Pair("Subtype", Name("Type1")), Pair("BaseFont", Name("Helvetica"))])

  function StreamObj(length: nat): Obj {
    Dict([Pair("Length", Int(length))])
  }

  function TrailerObj(size: nat): Obj {
    Dict([Pair("Size", Int(size)), Pair("Root", Ref(1, 0))])
  }

  // ----- One pair at a time -----

  function PairText(p: Pair): string {
    " /" + (p.key + (" " + Print(p.value)))
  }

  lemma PairsGrow(p: Pair, others: seq<Pair>)
    ensures PrintPairs([p] + others) == PairText(p) + PrintPairs(others)
  {
    assert ([p] + others)[1..] == others;
  }

  lemma OnePair(a: Pair)
    ensures Print(Dict([a])) == "<<" + (PairText(a) + " >>")
  {
    PairsGrow(a, []);
    assert [a] + [] == [a];
  }

  lemma TwoPairs(a: Pair, b: Pair)
    ensures Print(Dict([a, b])) == "<<" + (PairText(a) + (PairText(b) + " >>"))
  {
    OnePair(b);
    PairsGrow(b, []);
    PairsGrow(a, [b]);
    assert [a] + [b] == [a, b] && [b] + [] == [b];
  }

  lemma ThreePairs(a: Pair, b: Pair, c: Pair)
    ensures PrintPairs([b, c]) == PairText(b) + (PairText(c) + " >>")
    ensures Print(Dict([a, b, c])) == "<<" + (PairText(a) + (PairText(b) + (PairText(c) + " >>")))
  {
    PairsGrow(c, []);
    PairsGrow(b, [c]);
    PairsGrow(a, [b, c]);
    assert [a] + [b, c] == [a, b, c] && [b] + [c] == [b, c] && [c] + [] == [c];
  }

  lemma FivePairs(a: Pair, b: Pair, c: Pair, d: Pair, e: Pair)
    ensures Print(Dict([a, b, c, d, e]))
            == "<<" + (PairText(a) + (PairText(b) + (PairText(c) + (PairText(d) + (PairText(e) + " >>")))))
  {
    ThreePairs(c, d, e);
    PairsGrow(c, [d, e]);
    PairsGrow(b, [c, d, e]);
    PairsGrow(a, [b, c, d, e]);
    assert [c] + [d, e] == [c, d, e] && [b] + [c, d, e] == [b, c, d, e] && [a] + [b, c, d, e] == [a, b, c, d, e];
  }

  lemma NamePair(key: string, name: string, text: string)
    requires text == " /" + (key + (" /" + name))
    ensures PairText(Pair(key, Name(name))) == text
  {
    assert " " + ("/" + name) == " /" + name;
  }

  lemma RefText(n: nat, d: char)
    requires n < 10 && d == Digit(n)
    ensures Print(Ref(n, 0)) == [d] + " 0 R"
  {
    assert Decimal(0) == "0" && Decimal(n) == [d];
    assert [d] + " 0 R" == [d] + (" " + ("0" + (" " + "R")));
  }

  lemma RefPair(key: string, n: nat, d: char, text: string)
    requires n < 10 && d == Digit(n) && text == " /" + (key + (" " + ([d] + " 0 R")))
    ensures PairText(Pair(key, Ref(n, 0))) == text
  {
    RefText(n, d);
  }

  lemma CatalogText()
    ensures Print(CATALOG_OBJ) == CATALOG
  {
    NamePair("Type", "Catalog", " /Type /Catalog");
    RefPair("Pages", 2, '2', " /Pages 2 0 R");
    TwoPairs(Pair("Type", Name("Catalog")), Pair("Pages", Ref(2, 0)));
  }

  lemma KidsText()
    ensures PairText(Pair("Kids", Arr([Ref(3, 0)]))) == " /Kids [3 0 R]"
  {
    RefText(3, '3');
    assert [Ref(3, 0)][1..] == [];
    assert PrintItems([Ref(3, 0)]) == "3 0 R" + ("" + "]");
  }

  lemma CountText()
    ensures PairText(Pair("Count", Int(1))) == " /Count 1"
  {
    assert Decimal(1) == "1";
  }

  lemma PagesText()
    ensures Print(PAGES_OBJ) == PAGES
  {
    NamePair("Type", "Pages", " /Type /Pages");
    KidsText();
    CountText();
    ThreePairs(Pair("Type", Name("Pages")), Pair("Kids", Arr([Ref(3, 0)])), Pair("Count", Int(1)));
  }

  lemma FontTypeText()
    ensures PairText(Pair("Type", Name("Font"))) == " /Type /Font"
    ensures PairText(Pair("Subtype", Name("Type1"))) == " /Subtype /Type1"
  {
    NamePair("Type", "Font", " /Type /Font");
    NamePair("Subtype", "Type1", " /Subtype /Type1");
  }

  lemma FontText()
    ensures Print(FONT_OBJ) == FONT
  {
    FontTypeText();
    NamePair("BaseFont", "Helvetica", " /BaseFont /Helvetica");
    ThreePairs(Pair("Type", Name("Font")), Pair("Subtype", Name("Type1")), Pair("BaseFont", Name("Helvetica")));
  }

  lemma {:induction false} ItemsGrow(first: Obj, others: seq<Obj>)
    requires |others| > 0
    ensures PrintItems([first] + others) == Print(first) + (" " + PrintItems(others))
  {
    assert ([first] + others)[1..] == others;
  }

  lemma AppendDigit(n: nat, d: nat)
    requires n > 0 && d < 10
    ensures Decimal(10 * n + d) == Decimal(n) + [Digit(d)]
  {
    assert (10 * n + d) / 10 == n && (10 * n + d) % 10 == d;
  }

  lemma ThreeDigits(a: nat, b: nat, c: nat, n: nat, text: string)
    requires 0 < a < 10 && b < 10 && c < 10 && n == 10 * (10 * a + b) + c && text == [Digit(a), Digit(b), Digit(c)]
    ensures Print(Int(n)) == text
  {
    AppendDigit(10 * a + b, c);
    AppendDigit(a, b);
    assert Decimal(a) == [Digit(a)];
  }

  lemma FourItems(a: Obj, b: Obj, c: Obj, d: Obj)
    ensures Print(Arr([a, b, c, d]))
            == "[" + (Print(a) + (" " + (Print(b) + (" " + (Print(c) + (" " + (Print(d) + "]")))))))
  {
    var last, two := [d], [c] + [d];
    var three := [b] + two;
    LastItem(d);
    ItemsGrow(c, last);
    ItemsGrow(b, two);
    ItemsGrow(a, three);
    assert [a] + three == [a, b, c, d];
  }

  lemma LastItem(o: Obj)
    ensures PrintItems([o]) == Print(o) + "]"
  {
    assert [o][1..] == [];
  }

  lemma BoxText()
    ensures Print(MEDIA_BOX) == "[0 0 612 792]"
  {
    FourItems(Int(0), Int(0), Int(612), Int(792));
    ThreeDigits(6, 1, 2, 612, "612");
    ThreeDigits(7, 9, 2, 792, "792");
    assert Print(Int(0)) == "0";
  }

  lemma MediaBoxText()
    ensures PairText(Pair("MediaBox", MEDIA_BOX)) == " /MediaBox [0 0 612 792]"
  {
    BoxText();
    BoxPair("MediaBox", Print(MEDIA_BOX), " /MediaBox ");
  }

  lemma BoxPair(key: string, box: string, text: string)
    requires text == " /" + (key + " ")
    ensures " /" + (key + (" " + box)) == text + box
  {
  }

  lemma FontsText()
    ensures Print(FONTS_OBJ) == "<<" + (" /F1 5 0 R" + " >>")
  {
    RefPair("F1", 5, '5', " /F1 5 0 R");
    OnePair(Pair("F1", Ref(5, 0)));
  }

  lemma ResourcesText()
    ensures PairText(Pair("Resources", RESOURCES_OBJ)) == RESOURCES
  {
    FontsText();
    OnePair(Pair("Font", FONTS_OBJ));
    Nested(" /Resources", "Resources", " /Font", "Font", " /F1 5 0 R" + " >>");
  }

  lemma Nested(outerText: string, outer: string, innerText: string, inner: string, body: string)
    requires outerText == " /" + outer && innerText == " /" + inner
    ensures " /" + (outer + (" " + ("<<" + ((" /" + (inner + (" " + ("<<" + body)))) + " >>"))))
            == outerText + (" <<" + (innerText + (" <<" + body + " >>")))
  {
    assert " <<" == " " + "<<";
  }

  lemma PageText()
    ensures Print(PAGE_OBJ) == PAGE
  {
    NamePair("Type", "Page", " /Type /Page");
    RefPair("Parent", 2, '2', " /Parent 2 0 R");
    MediaBoxText();
    RefPair("Contents", 4, '4', " /Contents 4 0 R");
    ResourcesText();
    FivePairs(Pair("Type", Name("Page")), Pair("Parent", Ref(2, 0)), Pair("MediaBox", MEDIA_BOX),
              Pair("Contents", Ref(4, 0)), Pair("Resources", RESOURCES_OBJ));
  }

  lemma StreamText(length: nat)
    ensures Print(StreamObj(length)) == StreamDict(length)
  {
    OnePair(Pair("Length", Int(length)));
    LabelledNumber("<< /Length ", "Length", Decimal(length), " >>");
  }

  lemma LabelledNumber(text: string, key: string, number: string, tail: string)
    requires text == "<< /" + (key + " ")
    ensures "<<" + ((" /" + (key + (" " + number))) + tail) == text + (number + tail)
  {
    assert "<< /" == "<<" + " /";
  }

  lemma TrailerText(size: nat)
    ensures Print(TrailerObj(size)) == TrailerDict(size)
  {
    RefPair("Root", 1, '1', " /Root 1 0 R");
    TwoPairs(Pair("Size", Int(size)), Pair("Root", Ref(1, 0)));
    LabelledNumber("<< /Size ", "Size", Decimal(size), " /Root 1 0 R" + " >>");
  }

  // ----- The objects are well formed, and what their keys hold -----

  predicate IsLetterOrDigit(c: char) {
    'a' <= c <= 'z' || 'A' <= c <= 'Z' || '0' <= c <= '9'
  }

  lemma PlainText(s: string)
    requires forall i :: 0 <= i < |s| ==> IsLetterOrDigit(s[i])
    ensures RegularText(s)
  {
  }

  predicate IsPair(p: Pair) {
    RegularText(p.key) && WellFormed(p.value)
  }

  lemma {:induction false} NextPair(p: Pair, others: seq<Pair>)
    requires IsPair(p) && WellFormed(Dict(others))
    ensures WellFormed(Dict([p] + others))
  {
    var pairs := [p] + others;
    forall i | 0 <= i < |pairs| ensures RegularText(pairs[i].key) && WellFormed(pairs[i].value) {
      assert i > 0 ==> pairs[i] == others[i - 1];
    }
  }

  lemma NamedPair(key: string, name: string)
    requires forall i :: 0 <= i < |key| ==> IsLetterOrDigit(key[i])
    requires forall i :: 0 <= i < |name| ==> IsLetterOrDigit(name[i])
    ensures IsPair(Pair(key, Name(name)))
  {
    PlainText(key);
    PlainText(name);
  }

  lemma KeyedPair(key: string, o: Obj)
    requires (forall i :: 0 <= i < |key| ==> IsLetterOrDigit(key[i])) && WellFormed(o)
    ensures IsPair(Pair(key, o)) && WellFormed(Dict([Pair(key, o)]))
  {
    PlainText(key);
    NextPair(Pair(key, o), []);
    assert [Pair(key, o)] + [] == [Pair(key, o)];
  }

  lemma CatalogIsWellFormed()
    ensures WellFormed(CATALOG_OBJ)
  {
    NamedPair("Type", "Catalog");
    KeyedPair("Pages", Ref(2, 0));
    NextPair(Pair("Type", Name("Catalog")), [Pair("Pages", Ref(2, 0))]);
  }

  lemma PagesIsWellFormed()
    ensures WellFormed(PAGES_OBJ)
  {
    NamedPair("Type", "Pages");
    KeyedPair("Kids", Arr([Ref(3, 0)]));
    KeyedPair("Count", Int(1));
    NextPair(Pair("Kids", Arr([Ref(3, 0)])), [Pair("Count", Int(1))]);
    NextPair(Pair("Type", Name("Pages")), [Pair("Kids", Arr([Ref(3, 0)])), Pair("Count", Int(1))]);
  }

  lemma FontIsWellFormed()
    ensures WellFormed(FONT_OBJ)
  {
    NamedPair("Type", "Font");
    NamedPair("Subtype", "Type1");
    NamedPair("BaseFont", "Helvetica");
    KeyedPair("BaseFont", Name("Helvetica"));
    NextPair(Pair("Subtype", Name("Type1")), [Pair("BaseFont", Name("Helvetica"))]);
    NextPair(Pair("Type", Name("Font")), [Pair("Subtype", Name("Type1")), Pair("BaseFont", Name("Helvetica"))]);
  }

  lemma PageIsWellFormed()
    ensures WellFormed(PAGE_OBJ)
  {
    NamedPair("Type", "Page");
    KeyedPair("Parent", Ref(2, 0));
    KeyedPair("MediaBox", MEDIA_BOX);
    KeyedPair("Contents", Ref(4, 0));
    KeyedPair("F1", Ref(5, 0));
    KeyedPair("Font", FONTS_OBJ);
    KeyedPair("Resources", RESOURCES_OBJ);
    FivePairsKeep(Pair("Type", Name("Page")), Pair("Parent", Ref(2, 0)), Pair("MediaBox", MEDIA_BOX),
                  Pair("Contents", Ref(4, 0)), Pair("Resources", RESOURCES_OBJ));
  }

  lemma FivePairsKeep(a: Pair, b: Pair, c: Pair, d: Pair, e: Pair)
    requires IsPair(a) && IsPair(b) && IsPair(c) && IsPair(d) && IsPair(e)
    ensures WellFormed(Dict([a, b, c, d, e]))
  {
  }

  lemma SizesAreWellFormed(n: nat)
    ensures WellFormed(StreamObj(n)) && WellFormed(TrailerObj(n))
  {
    KeyedPair("Length", Int(n));
    KeyedPair("Root", Ref(1, 0));
    KeyedPair("Size", Int(n));
    NextPair(Pair("Size", Int(n)), [Pair("Root", Ref(1, 0))]);
  }

  /** The first pair with a key gives its value. */
  lemma {:induction false} FoundAt(pairs: seq<Pair>, key: string, i: nat)
    requires i < |pairs| && pairs[i].key == key && forall j :: 0 <= j < i ==> pairs[j].key != key
    ensures Get(Dict(pairs), key) == Some(pairs[i].value)
    decreases i
  {
    if i > 0 {
      FoundAt(pairs[1..], key, i - 1);
    }
  }

  lemma CatalogKeys()
    ensures Get(CATALOG_OBJ, "Type") == Some(Name("Catalog")) && Get(CATALOG_OBJ, "Pages") == Some(Ref(2, 0))
  {
    FoundAt(CATALOG_OBJ.pairs, "Pages", 1);
  }

  lemma PagesKeys()
    ensures Get(PAGES_OBJ, "Type") == Some(Name("Pages")) && Get(PAGES_OBJ, "Kids") == Some(Arr([Ref(3, 0)]))
    ensures Get(PAGES_OBJ, "Count") == Some(Int(1))
  {
    FoundAt(PAGES_OBJ.pairs, "Kids", 1);
    FoundAt(PAGES_OBJ.pairs, "Count", 2);
  }

  lemma PageKeys()
    ensures Get(PAGE_OBJ, "Type") == Some(Name("Page")) && Get(PAGE_OBJ, "Parent") == Some(Ref(2, 0))
    ensures Get(PAGE_OBJ, "Contents") == Some(Ref(4, 0)) && Get(PAGE_OBJ, "Resources") == Some(RESOURCES_OBJ)
    ensures Get(RESOURCES_OBJ, "Font") == Some(FONTS_OBJ)
  {
    FoundAt(PAGE_OBJ.pairs, "Type", 0);
    FoundAt(PAGE_OBJ.pairs, "Parent", 1);
    FoundAt(PAGE_OBJ.pairs, "Contents", 3);
    FoundAt(PAGE_OBJ.pairs, "Resources", 4);
  }

  lemma FontKeys()
    ensures Get(FONT_OBJ, "Type") == Some(Name("Font"))
  {
  }

  lemma SizeKeys(n: nat)
    ensures Get(StreamObj(n), "Length") == Some(Int(n))
    ensures Get(TrailerObj(n), "Size") == Some(Int(n)) && Get(TrailerObj(n), "Root") == Some(Ref(1, 0))
  {
    FoundAt(TrailerObj(n).pairs, "Root", 1);
  }
}
