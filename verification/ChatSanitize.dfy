/** The chat sanitiser: four global replacements and a trim, over arbitrary text. */
module ChatSanitize {
  import opened Common

  /** The four regular expressions: a script block, a tag, and two URI schemes. */
  datatype Pattern = ScriptBlock | Tag | Scheme(text: string)

  const JAVASCRIPT := Scheme("javascript:")
  const DATA_HTML := Scheme("data:text/html")

  function Lower(c: char): char {
    if 'A' <= c <= 'Z' then (c as int - 'A' as int + 'a' as int) as char else c
  }

  /** Case-insensitive match of a lower-case text at the start. */
  predicate StartsWithText(s: string, text: string) {
    |text| <= |s| && forall i :: 0 <= i < |text| ==> Lower(s[i]) == text[i]
  }

  predicate IsWordChar(c: char) {
    'a' <= Lower(c) <= 'z' || '0' <= c <= '9' || c == '_'
  }

  /** The position of the first `c` from `i` on, or the length. */
  function IndexOf(s: string, c: char, i: nat): (r: nat)
    requires i <= |s|
    ensures i <= r <= |s| && (r < |s| ==> s[r] == c) && forall k :: i <= k < r ==> s[k] != c
    decreases |s| - i
  {
    if i == |s| || s[i] == c then i else IndexOf(s, c, i + 1)
  }

  /** The position of the first closing script tag from `i` on, or the length. */
  function ScriptEnd(s: string, i: nat): (r: nat)
    requires i <= |s|
    ensures i <= r <= |s| && (r < |s| ==> StartsWithText(s[r..], "</script>"))
    ensures forall k :: i <= k < r ==> !StartsWithText(s[k..], "</script>")
    decreases |s| - i
  {
    if i == |s| || StartsWithText(s[i..], "</script>") then i else ScriptEnd(s, i + 1)
  }

  /** The length of the pattern's match at the start of `s`, 0 for none. */
  function MatchLength(p: Pattern, s: string): (n: nat)
    ensures n <= |s|
  {
    match p
    case ScriptBlock =>
      if StartsWithText(s, "<script") && (|s| == 7 || !IsWordChar(s[7])) && ScriptEnd(s, 7) < |s|
      then ScriptEnd(s, 7) + 9 else 0
    case Tag =>
      if |s| > 0 && s[0] == '<' && IndexOf(s, '>', 1) > 1 && IndexOf(s, '>', 1) < |s|
      then IndexOf(s, '>', 1) + 1 else 0
    case Scheme(text) => if StartsWithText(s, text) then |text| else 0
  }

  /** A global replacement by the empty string. */
  function RemoveAll(p: Pattern, s: string): string
    decreases |s|
  {
    if s == "" then ""
    else if MatchLength(p, s) > 0 then RemoveAll(p, s[MatchLength(p, s)..])
    else [s[0]] + RemoveAll(p, s[1..])
  }

  predicate IsSpace(c: char) {
    || c == '\t' || c == '\n' || c == '\r' || c == ' ' || c == '\U{0B}' || c == '\U{0C}' || c == '\U{A0}'
    || c == '\U{1680}' || '\U{2000}' <= c <= '\U{200A}' || c == '\U{2028}' || c == '\U{2029}' || c == '\U{202F}'
    || c == '\U{205F}' || c == '\U{3000}' || c == '\U{FEFF}'
  }

  function TrimStart(s: string): string {
    if s != "" && IsSpace(s[0]) then TrimStart(s[1..]) else s
  }

  function TrimEnd(s: string): string {
    if s != "" && IsSpace(s[|s| - 1]) then TrimEnd(s[..|s| - 1]) else s
  }

  function StripTags(s: string): string {
    RemoveAll(Tag, RemoveAll(ScriptBlock, s))
  }

  function Sanitize(content: string): string {
    TrimEnd(TrimStart(RemoveAll(DATA_HTML, RemoveAll(JAVASCRIPT, StripTags(content)))))
  }

  // ----- What the output looks like -----

  /** A '<', then one or more characters other than '>', then '>'. */
  predicate TagAt(s: string, i: int, j: int) {
    0 <= i && i + 1 < j < |s| && s[i] == '<' && s[j] == '>' && forall k :: i < k < j ==> s[k] != '>'
  }

  ghost predicate NoTag(s: string) {
    forall i, j :: !TagAt(s, i, j)
  }

  predicate NoGt(s: string) {
    forall k :: 0 <= k < |s| ==> s[k] != '>'
  }

  /** Each '<' is followed by '>' at once or never; the same as having no tag. */
  predicate Clean(s: string) {
    s == "" || ((s[0] == '<' ==> NoGt(s[1..]) || s[1] == '>') && Clean(s[1..]))
  }

  lemma {:induction false} CleanIsNoTag(s: string)
    ensures Clean(s) <==> NoTag(s)
    decreases |s|
  {
    if s != "" {
      var t := s[1..];
      CleanIsNoTag(t);
      forall i, j ensures TagAt(t, i, j) <==> i >= 0 && TagAt(s, i + 1, j + 1) {
        if i >= 0 && TagAt(s, i + 1, j + 1) {
          assert forall k :: i < k < j ==> t[k] == s[k + 1];
        }
        if TagAt(t, i, j) {
          assert forall k :: i + 1 < k < j + 1 ==> s[k] == t[k - 1];
        }
      }
      HeadTag(s);
      if NoTag(s) {
        assert NoTag(t);
      } else {
        var i, j :| TagAt(s, i, j);
        assert i > 0 ==> TagAt(t, i - 1, j - 1);
      }
    }
  }

  lemma HeadTag(s: string)
    requires s != ""
    ensures (exists j :: TagAt(s, 0, j)) <==> s[0] == '<' && !NoGt(s[1..]) && s[1] != '>'
  {
    if s[0] == '<' && !NoGt(s[1..]) {
      var k :| 0 <= k < |s| - 1 && s[1..][k] == '>';
      var j := IndexOf(s, '>', 1);
      assert s[k + 1] == '>';
      assert j < |s|;
      assert s[1] != '>' ==> TagAt(s, 0, j);
    }
    forall j | TagAt(s, 0, j) ensures !NoGt(s[1..]) {
      assert s[1..][j - 1] == '>';
    }
  }

  // ----- Subsequences -----

  /** `t` is obtained from `s` by deleting characters. */
  predicate IsSubsequence(t: string, s: string) {
    t == "" || (s != "" && ((t[0] == s[0] && IsSubsequence(t[1..], s[1..])) || IsSubsequence(t, s[1..])))
  }

  lemma {:induction false} SubsequenceOfSuffix(t: string, s: string, n: nat)
    requires n <= |s| && IsSubsequence(t, s[n..])
    ensures IsSubsequence(t, s)
    decreases n
  {
    if n > 0 {
      assert s[n - 1..][1..] == s[n..];
      SubsequenceOfSuffix(t, s, n - 1);
    } else {
      assert s[0..] == s;
    }
  }

  lemma {:induction false} Itself(s: string)
    ensures IsSubsequence(s, s)
    decreases |s|
  {
    if s != "" { Itself(s[1..]); }
  }

  lemma {:induction false} SubsequenceTransitive(t: string, u: string, s: string)
    requires IsSubsequence(t, u) && IsSubsequence(u, s)
    ensures IsSubsequence(t, s)
    decreases |u| + |s|
  {
    if t != "" {
      if u[0] == s[0] && IsSubsequence(u[1..], s[1..]) {
        if t[0] == u[0] && IsSubsequence(t[1..], u[1..]) {
          SubsequenceTransitive(t[1..], u[1..], s[1..]);
        } else {
          SubsequenceTransitive(t, u[1..], s[1..]);
        }
      } else {
        SubsequenceTransitive(t, u, s[1..]);
      }
    }
  }

  lemma {:induction false} RemovedIsSubsequence(p: Pattern, s: string)
    ensures IsSubsequence(RemoveAll(p, s), s) && |RemoveAll(p, s)| <= |s|
    ensures MatchesNowhere(p, s) ==> RemoveAll(p, s) == s
    ensures !MatchesNowhere(p, s) ==> |RemoveAll(p, s)| < |s|
    decreases |s|
  {
    if s != "" {
      var n := MatchLength(p, s);
      assert s[0..] == s;
      if n > 0 {
        RemovedIsSubsequence(p, s[n..]);
        SubsequenceOfSuffix(RemoveAll(p, s), s, n);
        assert !MatchesNowhere(p, s);
      } else {
        RemovedIsSubsequence(p, s[1..]);
        var out := RemoveAll(p, s);
        assert out[1..] == RemoveAll(p, s[1..]);
        NowhereInTail(p, s);
      }
    }
  }

  /** The pattern matches at no position. */
  ghost predicate MatchesNowhere(p: Pattern, s: string) {
    forall i :: 0 <= i < |s| ==> MatchLength(p, s[i..]) == 0
  }

  lemma NowhereInTail(p: Pattern, s: string)
    requires s != "" && MatchLength(p, s) == 0
    ensures MatchesNowhere(p, s) <==> MatchesNowhere(p, s[1..])
  {
    assert s[0..] == s;
    assert forall i :: 0 <= i < |s| - 1 ==> s[1..][i..] == s[i + 1..];
    if MatchesNowhere(p, s[1..]) {
      forall i | 0 <= i < |s| ensures MatchLength(p, s[i..]) == 0 {
        if i > 0 { assert s[1..][i - 1..] == s[i..]; }
      }
    }
  }

  lemma {:induction false} TrimmedIsSubsequence(s: string)
    ensures IsSubsequence(TrimStart(s), s) && IsSubsequence(TrimEnd(s), s)
    decreases |s|
  {
    Itself(s);
    if s != "" {
      if IsSpace(s[0]) {
        TrimmedIsSubsequence(s[1..]);
        SubsequenceOfSuffix(TrimStart(s), s, 1);
      }
      if IsSpace(s[|s| - 1]) {
        TrimmedIsSubsequence(s[..|s| - 1]);
        PrefixIsSubsequence(s, |s| - 1);
        SubsequenceTransitive(TrimEnd(s), s[..|s| - 1], s);
      }
    }
  }

  lemma {:induction false} PrefixIsSubsequence(s: string, n: nat)
    requires n <= |s|
    ensures IsSubsequence(s[..n], s)
    decreases n
  {
    if n > 0 {
      PrefixIsSubsequence(s[1..], n - 1);
      assert s[..n][1..] == s[1..][..n - 1];
    }
  }

  /** The output is made of the input's characters, in order. */
  lemma OutputIsSubsequence(content: string)
    ensures IsSubsequence(Sanitize(content), content)
  {
    var a := RemoveAll(ScriptBlock, content);
    var b := RemoveAll(Tag, a);
    var c := RemoveAll(JAVASCRIPT, b);
    var d := RemoveAll(DATA_HTML, c);
    RemovedIsSubsequence(ScriptBlock, content);
    RemovedIsSubsequence(Tag, a);
    RemovedIsSubsequence(JAVASCRIPT, b);
    RemovedIsSubsequence(DATA_HTML, c);
    TrimmedIsSubsequence(d);
    TrimmedIsSubsequence(TrimStart(d));
    SubsequenceTransitive(b, a, content);
    SubsequenceTransitive(c, b, content);
    SubsequenceTransitive(d, c, content);
    SubsequenceTransitive(TrimStart(d), d, content);
    SubsequenceTransitive(TrimEnd(TrimStart(d)), TrimStart(d), content);
  }

  // ----- No tag survives -----

  lemma {:induction false} NoGtKept(t: string, s: string)
    requires IsSubsequence(t, s) && NoGt(s)
    ensures NoGt(t)
    decreases |s|
  {
    if t != "" {
      assert forall k :: 0 <= k < |s| - 1 ==> s[1..][k] == s[k + 1];
      if t[0] == s[0] && IsSubsequence(t[1..], s[1..]) {
        NoGtKept(t[1..], s[1..]);
        assert forall k :: 1 <= k < |t| ==> t[k] == t[1..][k - 1];
      } else {
        NoGtKept(t, s[1..]);
      }
    }
  }

  lemma {:induction false} CleanSuffix(s: string, n: nat)
    requires Clean(s) && n <= |s|
    ensures Clean(s[n..])
    decreases n
  {
    if n > 0 {
      CleanSuffix(s[1..], n - 1);
      assert s[1..][n - 1..] == s[n..];
    } else {
      assert s[0..] == s;
    }
  }

  /** Stripping tags leaves none. */
  lemma {:induction false} StrippedIsClean(s: string)
    ensures Clean(RemoveAll(Tag, s))
    decreases |s|
  {
    if s != "" {
      var n := MatchLength(Tag, s);
      if n > 0 {
        StrippedIsClean(s[n..]);
      } else {
        StrippedIsClean(s[1..]);
        var out := RemoveAll(Tag, s);
        assert out[1..] == RemoveAll(Tag, s[1..]);
        RemovedIsSubsequence(Tag, s[1..]);
        if s[0] == '<' {
          NotATag(s);
          if NoGt(s[1..]) {
            NoGtKept(out[1..], s[1..]);
          } else {
            assert RemoveAll(Tag, s[1..])[0] == '>';
          }
        }
      }
    }
  }

  lemma NotATag(s: string)
    requires s != "" && s[0] == '<' && MatchLength(Tag, s) == 0
    ensures NoGt(s[1..]) || s[1] == '>'
  {
  }

  /** Deleting a scheme cannot bring a '<' and a '>' together that were not adjacent. */
  lemma {:induction false} SchemeKeepsClean(text: string, s: string)
    requires Clean(s) && text != "" && forall i :: 0 <= i < |text| ==> text[i] != '<' && text[i] != '>'
    ensures Clean(RemoveAll(Scheme(text), s))
    decreases |s|
  {
    var p := Scheme(text);
    if s != "" {
      var n := MatchLength(p, s);
      if n > 0 {
        CleanSuffix(s, n);
        SchemeKeepsClean(text, s[n..]);
      } else {
        SchemeKeepsClean(text, s[1..]);
        var out := RemoveAll(p, s);
        assert out[1..] == RemoveAll(p, s[1..]);
        RemovedIsSubsequence(p, s[1..]);
        if s[0] == '<' {
          if NoGt(s[1..]) {
            NoGtKept(out[1..], s[1..]);
          } else {
            assert Lower(s[1]) != text[0];
            assert out[1..][0] == '>';
          }
        }
      }
    }
  }

  lemma {:induction false} TrimKeepsClean(s: string)
    requires Clean(s)
    ensures Clean(TrimStart(s)) && Clean(TrimEnd(s))
    decreases |s|
  {
    if s != "" {
      TrimKeepsClean(s[1..]);
      if IsSpace(s[|s| - 1]) {
        CleanWithoutLast(s);
        TrimKeepsClean(s[..|s| - 1]);
      }
    }
  }

  lemma {:induction false} CleanWithoutLast(s: string)
    requires Clean(s) && s != "" && s[|s| - 1] != '>'
    ensures Clean(s[..|s| - 1])
    decreases |s|
  {
    if |s| > 1 {
      CleanWithoutLast(s[1..]);
      var t := s[..|s| - 1];
      assert t[1..] == s[1..][..|s| - 2];
      assert forall k :: 0 <= k < |t| - 1 ==> t[1..][k] == s[1..][k];
    }
  }

  /** For every input, the output holds no tag. */
  lemma OutputHasNoTag(content: string)
    ensures NoTag(Sanitize(content))
  {
    var b := StripTags(content);
    StrippedIsClean(RemoveAll(ScriptBlock, content));
    SchemeKeepsClean("javascript:", b);
    SchemeKeepsClean("data:text/html", RemoveAll(JAVASCRIPT, b));
    var d := RemoveAll(DATA_HTML, RemoveAll(JAVASCRIPT, b));
    TrimKeepsClean(d);
    TrimKeepsClean(TrimStart(d));
    CleanIsNoTag(Sanitize(content));
  }

  // ----- What is left alone -----

  lemma {:induction false} CleanHasNoMatch(s: string)
    ensures Clean(s) <==> MatchesNowhere(Tag, s)
    decreases |s|
  {
    if s != "" {
      CleanHasNoMatch(s[1..]);
      assert s[0..] == s;
      HeadMatch(s);
      if MatchLength(Tag, s) == 0 {
        NowhereInTail(Tag, s);
      }
    }
  }

  lemma HeadMatch(s: string)
    requires s != ""
    ensures MatchLength(Tag, s) == 0 <==> (s[0] == '<' ==> NoGt(s[1..]) || s[1] == '>')
  {
  }

  /** Tag stripping changes exactly the texts that hold a tag, and doing it twice is doing it once. */
  lemma StrippingIsIdempotent(s: string)
    ensures RemoveAll(Tag, s) == s <==> NoTag(s)
    ensures RemoveAll(Tag, RemoveAll(Tag, s)) == RemoveAll(Tag, s)
  {
    StrippedIsClean(s);
    CleanHasNoMatch(s);
    CleanHasNoMatch(RemoveAll(Tag, s));
    CleanIsNoTag(s);
    RemovedIsSubsequence(Tag, s);
    RemovedIsSubsequence(Tag, RemoveAll(Tag, s));
  }

  lemma ScriptHoldsTag(s: string)
    requires MatchLength(ScriptBlock, s) > 0
    ensures !Clean(s)
  {
    var e := ScriptEnd(s, 7);
    assert Lower(s[0]) == '<' && Lower(s[1]) == 's';
    assert Lower(s[e..][8]) == '>' && s[e..][8] == s[e + 8];
    assert s[1..][e + 7] == '>';
  }

  /** A script block holds a tag, so text without tags has none. */
  lemma NoTagNoScript(s: string)
    requires Clean(s)
    ensures MatchesNowhere(ScriptBlock, s)
  {
    forall i | 0 <= i < |s| ensures MatchLength(ScriptBlock, s[i..]) == 0 {
      CleanSuffix(s, i);
      if MatchLength(ScriptBlock, s[i..]) > 0 {
        ScriptHoldsTag(s[i..]);
      }
    }
  }

  /** The white space and line ends of ECMA-262. */
  predicate IsBlank(c: char) {
    var n := c as int;
    || 9 <= n <= 13 || n == 32 || n == 160 || n == 0x1680 || 0x2000 <= n <= 0x200A || 0x2028 <= n <= 0x2029
    || n == 0x202F || n == 0x205F || n == 0x3000 || n == 0xFEFF
  }

  predicate IsTrimmed(s: string) {
    s != "" ==> !IsBlank(s[0]) && !IsBlank(s[|s| - 1])
  }

  predicate IsBlankText(s: string) {
    forall i :: 0 <= i < |s| ==> IsBlank(s[i])
  }

  lemma SpacesAreBlank(c: char)
    ensures IsSpace(c) <==> IsBlank(c)
  {
  }

  lemma {:induction false} StartIsTrimmed(s: string) returns (a: string)
    ensures s == a + TrimStart(s) && IsBlankText(a)
    ensures TrimStart(s) != "" ==> !IsBlank(TrimStart(s)[0])
    decreases |s|
  {
    a := "";
    if s != "" {
      SpacesAreBlank(s[0]);
      if IsSpace(s[0]) {
        var rest := StartIsTrimmed(s[1..]);
        a := [s[0]] + rest;
      }
    }
  }

  lemma {:induction false} EndIsTrimmed(s: string) returns (b: string)
    ensures s == TrimEnd(s) + b && IsBlankText(b)
    ensures TrimEnd(s) != "" ==> !IsBlank(TrimEnd(s)[|TrimEnd(s)| - 1])
    decreases |s|
  {
    b := "";
    if s != "" {
      SpacesAreBlank(s[|s| - 1]);
      if IsSpace(s[|s| - 1]) {
        var front, last := s[..|s| - 1], [s[|s| - 1]];
        var rest := EndIsTrimmed(front);
        b := rest + last;
        AppendIsAssociative(TrimEnd(s), rest, last);
        assert s == front + last;
      }
    }
  }

  lemma TrimIsExact(d: string) returns (a: string, b: string)
    ensures d == a + TrimEnd(TrimStart(d)) + b && IsBlankText(a) && IsBlankText(b) && IsTrimmed(TrimEnd(TrimStart(d)))
  {
    a := StartIsTrimmed(d);
    b := EndIsTrimmed(TrimStart(d));
    var out := TrimEnd(TrimStart(d));
    AppendIsAssociative(a, out, b);
    assert out != "" ==> TrimStart(d)[0] == out[0];
  }

  /** The output is trimmed, and nothing but blank text was trimmed off. */
  lemma OutputIsTrimmed(content: string) returns (a: string, b: string)
    ensures IsTrimmed(Sanitize(content)) && IsBlankText(a) && IsBlankText(b)
    ensures RemoveAll(DATA_HTML, RemoveAll(JAVASCRIPT, StripTags(content))) == a + Sanitize(content) + b
  {
    a, b := TrimIsExact(RemoveAll(DATA_HTML, RemoveAll(JAVASCRIPT, StripTags(content))));
  }

  lemma {:induction false} TrimLengths(s: string)
    ensures |TrimStart(s)| <= |s| && |TrimEnd(s)| <= |s|
    ensures |TrimStart(s)| == |s| ==> TrimStart(s) == s
    ensures TrimStart(s) == s <==> s == "" || !IsBlank(s[0])
    ensures TrimEnd(s) == s <==> s == "" || !IsBlank(s[|s| - 1])
    decreases |s|
  {
    if s != "" {
      SpacesAreBlank(s[0]);
      SpacesAreBlank(s[|s| - 1]);
      TrimLengths(s[1..]);
      TrimLengths(s[..|s| - 1]);
    }
  }

  /** A message that comes out unchanged was left alone by every stage. */
  lemma UnchangedThroughout(content: string)
    requires Sanitize(content) == content
    ensures RemoveAll(ScriptBlock, content) == content && RemoveAll(Tag, content) == content
    ensures RemoveAll(JAVASCRIPT, content) == content && RemoveAll(DATA_HTML, content) == content
    ensures TrimStart(content) == content && TrimEnd(content) == content
  {
    var a := RemoveAll(ScriptBlock, content);
    var b := RemoveAll(Tag, a);
    var c := RemoveAll(JAVASCRIPT, b);
    var d := RemoveAll(DATA_HTML, c);
    RemovedIsSubsequence(ScriptBlock, content);
    RemovedIsSubsequence(Tag, a);
    RemovedIsSubsequence(JAVASCRIPT, b);
    RemovedIsSubsequence(DATA_HTML, c);
    TrimLengths(d);
    TrimLengths(TrimStart(d));
    assert |a| == |content| && a == content;
    assert b == content && c == content && d == content && TrimStart(d) == d;
  }

  /** Exactly which messages pass unchanged: no tag, neither scheme, no space at either end. */
  lemma UnchangedExactly(content: string)
    ensures Sanitize(content) == content <==>
              NoTag(content) && MatchesNowhere(Scheme("javascript:"), content)
              && MatchesNowhere(Scheme("data:text/html"), content)
              && IsTrimmed(content)
  {
    RemovedIsSubsequence(ScriptBlock, content);
    RemovedIsSubsequence(Tag, content);
    RemovedIsSubsequence(JAVASCRIPT, content);
    RemovedIsSubsequence(DATA_HTML, content);
    TrimLengths(content);
    CleanIsNoTag(content);
    CleanHasNoMatch(content);
    if Clean(content) {
      NoTagNoScript(content);
    }
    if Sanitize(content) == content {
      UnchangedThroughout(content);
    }
  }

  // ----- Script blocks -----

  /** `s` begins with the lower-case text, capitals allowed. */
  predicate Begins(s: string, text: string) {
    |text| <= |s| && forall i :: 0 <= i < |text| ==>
      s[i] == text[i] || ('A' <= s[i] <= 'Z' && s[i] as int + 32 == text[i] as int)
  }

  lemma BeginsIgnoresCase(s: string, text: string)
    requires forall i :: 0 <= i < |text| ==> !('A' <= text[i] <= 'Z')
    ensures StartsWithText(s, text) <==> Begins(s, text)
  {
  }

  /** No closing tag starts from `k` up to `n`. */
  predicate NoClosing(s: string, k: nat, n: nat)
    requires k <= n <= |s|
    decreases n - k
  {
    k == n || (!Begins(s[k..], "</script>") && NoClosing(s, k + 1, n))
  }

  /** `s` begins with a script element whose first closing tag starts at `n`; the opening name is a whole word. */
  predicate IsScript(s: string, n: int) {
    && Begins(s, "<script") && 7 <= n <= |s| && NoClosing(s, 7, n) && Begins(s[n..], "</script>")
    && !('a' <= s[7] <= 'z' || 'A' <= s[7] <= 'Z' || '0' <= s[7] <= '9' || s[7] == '_')
  }

  lemma ClosingTags(s: string)
    ensures StartsWithText(s, "</script>") <==> Begins(s, "</script>")
    ensures StartsWithText(s, "<script") <==> Begins(s, "<script")
  {
    BeginsIgnoresCase(s, "</script>");
    BeginsIgnoresCase(s, "<script");
  }

  lemma {:induction false} FirstClosing(s: string, k: nat, n: nat)
    requires k <= n < |s|
    ensures NoClosing(s, k, n) && Begins(s[n..], "</script>") <==> ScriptEnd(s, k) == n
    decreases n - k
  {
    ClosingTags(s[k..]);
    if k < n {
      FirstClosing(s, k + 1, n);
    }
  }

  lemma ScriptIsMatched(s: string, n: int)
    ensures IsScript(s, n) <==> n >= 7 && MatchLength(ScriptBlock, s) == n + 9
  {
    ClosingTags(s);
    if 7 <= n < |s| {
      FirstClosing(s, 7, n);
    }
  }

  ghost predicate HasScript(s: string) {
    exists n :: IsScript(s, n)
  }

  /** The first script element of `s` starts at `i`, and its closing tag `n` characters later. */
  ghost predicate IsFirstScript(s: string, i: nat, n: int)
    decreases i
  {
    if i == 0 then IsScript(s, n) else s != "" && !HasScript(s) && IsFirstScript(s[1..], i - 1, n)
  }

  lemma MatchIsScript(s: string)
    ensures var n: int := MatchLength(ScriptBlock, s); n == 0 || (n >= 16 && IsScript(s, n - 9))
  {
    var n: int := MatchLength(ScriptBlock, s);
    if n > 0 {
      ScriptIsMatched(s, n - 9);
    }
  }

  lemma NoMatchWithoutScript(s: string)
    requires !HasScript(s)
    ensures MatchLength(ScriptBlock, s) == 0
  {
    MatchIsScript(s);
  }

  /** Without a script element the pass changes nothing. */
  lemma NoScriptIsKept(s: string)
    requires forall k :: 0 <= k < |s| ==> !HasScript(s[k..])
    ensures RemoveAll(ScriptBlock, s) == s
  {
    forall k | 0 <= k < |s| ensures MatchLength(ScriptBlock, s[k..]) == 0 {
      NoMatchWithoutScript(s[k..]);
    }
    RemovedIsSubsequence(ScriptBlock, s);
  }

  /** The first match of the pattern starts at `i` and ends before `m`. */
  predicate IsFirstMatch(p: Pattern, s: string, i: nat, m: int)
    decreases i
  {
    if i == 0 then m > 0 && MatchLength(p, s) == m
    else s != "" && MatchLength(p, s) == 0 && IsFirstMatch(p, s[1..], i - 1, m - 1)
  }

  lemma TailSlices(s: string, i: nat, m: nat)
    requires 0 < i < m <= |s|
    ensures s[1..][m - 1..] == s[m..] && [s[0]] + s[1..][..i - 1] == s[..i]
  {
  }

  /** A pass keeps what is before its first match, cuts the match out and goes on behind it. */
  lemma {:induction false} FirstMatchIsCut(p: Pattern, s: string, i: nat, m: int)
    requires IsFirstMatch(p, s, i, m)
    ensures i < m <= |s| && RemoveAll(p, s) == s[..i] + RemoveAll(p, s[m..])
    decreases i
  {
    if i > 0 {
      FirstMatchIsCut(p, s[1..], i - 1, m - 1);
      TailSlices(s, i, m);
      AppendIsAssociative([s[0]], s[1..][..i - 1], RemoveAll(p, s[m..]));
    }
  }

  lemma {:induction false} FirstScriptIsMatch(s: string, i: nat, n: int)
    requires IsFirstScript(s, i, n)
    ensures n >= 7 && IsFirstMatch(ScriptBlock, s, i, i + n + 9)
    decreases i
  {
    if i == 0 {
      ScriptIsMatched(s, n);
    } else {
      NoMatchWithoutScript(s);
      FirstScriptIsMatch(s[1..], i - 1, n);
    }
  }

  /** The first script element is cut out with all its content, and the pass goes on behind its closing tag. */
  lemma ScriptIsCut(s: string, i: nat, n: int)
    requires IsFirstScript(s, i, n)
    ensures n >= 7 && i + n + 9 <= |s|
    ensures RemoveAll(ScriptBlock, s) == s[..i] + RemoveAll(ScriptBlock, s[i + n + 9..])
  {
    FirstScriptIsMatch(s, i, n);
    FirstMatchIsCut(ScriptBlock, s, i, i + n + 9);
  }
}
