/** When a sanitised message still holds a scheme that the sanitiser strips. */
module ChatSchemes {
  import opened ChatSanitize

  // ----- Spelling over what is left -----

  /**
   * The positions `at` spell `t` in `s`, case aside: all of them are left, in order, and every position left from
   * the first to the last is one of them.
   */
  ghost predicate Spells(s: string, t: string, at: seq<nat>, left: set<nat>) {
    && t != "" && Reads(s, t, at) && Increasing(at)
    && (forall k :: 0 <= k < |at| ==> at[k] in left)
    && (forall j :: j in left && at[0] <= j <= at[|at| - 1] ==> j in at)
  }

  /** What is left when every spelling of `t` is removed. */
  ghost function Left(s: string, t: string, left: set<nat>): set<nat> {
    set j | j in left && !exists at :: Spells(s, t, at, left) && j in at
  }

  /** Every position of the text. */
  function Positions(s: string): set<nat> {
    Elements(seq(|s|, i => i))
  }

  function Elements(ps: seq<nat>): set<nat> {
    set p | p in ps
  }

  predicate Increasing(ps: seq<nat>) {
    forall i, j :: 0 <= i < j < |ps| ==> ps[i] < ps[j]
  }

  // ----- A replacement on positions -----

  predicate Within(s: string, ps: seq<nat>) {
    forall i :: 0 <= i < |ps| ==> ps[i] < |s|
  }

  function Select(s: string, ps: seq<nat>): string
    requires Within(s, ps)
  {
    seq(|ps|, i requires 0 <= i < |ps| => s[ps[i]])
  }

  predicate Reads(s: string, t: string, at: seq<nat>) {
    |at| == |t| && forall k :: 0 <= k < |at| ==> at[k] < |s| && Lower(s[at[k]]) == t[k]
  }

  /** The text stands at the place `q` of the list of positions. */
  predicate RunAt(s: string, t: string, ps: seq<nat>, q: nat) {
    q + |t| <= |ps| && Reads(s, t, ps[q..q + |t|])
  }

  /** What the replacement of `t` by nothing leaves of the positions. */
  function Pass(s: string, t: string, ps: seq<nat>): (r: seq<nat>)
    requires Within(s, ps)
    ensures Within(s, r)
    decreases |ps|
  {
    if |ps| == 0 || t == "" then ps
    else if RunAt(s, t, ps, 0) then Pass(s, t, ps[|t|..])
    else [ps[0]] + Pass(s, t, ps[1..])
  }

  lemma SelectSuffix(s: string, ps: seq<nat>, q: nat)
    requires Within(s, ps) && q <= |ps|
    ensures Select(s, ps)[q..] == Select(s, ps[q..])
  {
  }

  lemma RunIsMatch(s: string, t: string, ps: seq<nat>, q: nat)
    requires Within(s, ps) && t != "" && q <= |ps|
    ensures RunAt(s, t, ps, q) <==> MatchLength(Scheme(t), Select(s, ps)[q..]) > 0
  {
    var c := Select(s, ps)[q..];
    if q + |t| <= |ps| {
      var at := ps[q..q + |t|];
      assert forall k :: 0 <= k < |t| ==> at[k] < |s| && c[k] == s[at[k]];
    }
  }

  lemma {:induction false} PassSelects(s: string, t: string, ps: seq<nat>)
    requires Within(s, ps) && t != ""
    ensures Select(s, Pass(s, t, ps)) == RemoveAll(Scheme(t), Select(s, ps))
    decreases |ps|
  {
    if |ps| > 0 {
      var c := Select(s, ps);
      assert c[0..] == c;
      RunIsMatch(s, t, ps, 0);
      if RunAt(s, t, ps, 0) {
        SelectSuffix(s, ps, |t|);
        PassSelects(s, t, ps[|t|..]);
      } else {
        SelectSuffix(s, ps, 1);
        PassSelects(s, t, ps[1..]);
      }
    }
  }

  // ----- What a replacement leaves -----

  /** The text does not start inside itself, so its occurrences do not overlap. */
  predicate StartsApart(t: string) {
    t != "" && forall k :: 0 < k < |t| ==> t[k] != t[0]
  }

  ghost predicate Covered(s: string, t: string, ps: seq<nat>, j: nat) {
    exists q: nat :: RunAt(s, t, ps, q) && j in ps[q..q + |t|]
  }

  /** The runs of a suffix are the runs that start in it. */
  lemma RunInSuffix(s: string, t: string, ps: seq<nat>, n: nat, q: nat)
    requires n <= |ps|
    ensures RunAt(s, t, ps[n..], q) <==> RunAt(s, t, ps, n + q)
    ensures RunAt(s, t, ps, n + q) ==> ps[n..][q..q + |t|] == ps[n + q..n + q + |t|]
  {
    if n + q + |t| <= |ps| {
      assert ps[n..][q..q + |t|] == ps[n + q..n + q + |t|];
    }
  }

  lemma CoveredInSuffix(s: string, t: string, ps: seq<nat>, n: nat, j: nat)
    requires n <= |ps|
    ensures Covered(s, t, ps[n..], j) <==> exists q: nat :: q >= n && RunAt(s, t, ps, q) && j in ps[q..q + |t|]
  {
    if q: nat :| q >= n && RunAt(s, t, ps, q) && j in ps[q..q + |t|] {
      RunInSuffix(s, t, ps, n, q - n);
    }
    if q: nat :| RunAt(s, t, ps[n..], q) && j in ps[n..][q..q + |t|] {
      RunInSuffix(s, t, ps, n, q);
      assert n + q >= n;
    }
  }

  lemma RunsDoNotOverlap(s: string, t: string, ps: seq<nat>, q: nat)
    requires StartsApart(t) && RunAt(s, t, ps, 0) && 0 < q < |t| && q + |t| <= |ps|
    ensures !RunAt(s, t, ps, q)
  {
    assert ps[0..|t|][q] == ps[q] == ps[q..q + |t|][0];
  }

  lemma CoveredAfterRun(s: string, t: string, ps: seq<nat>, j: nat)
    requires StartsApart(t) && RunAt(s, t, ps, 0)
    ensures Covered(s, t, ps, j) <==> j in ps[..|t|] || Covered(s, t, ps[|t|..], j)
  {
    assert ps[0..|t|] == ps[..|t|];
    CoveredInSuffix(s, t, ps, |t|, j);
    forall q: nat | 0 < q < |t| && q + |t| <= |ps| ensures !RunAt(s, t, ps, q) {
      RunsDoNotOverlap(s, t, ps, q);
    }
  }

  lemma CoveredInTail(s: string, t: string, ps: seq<nat>, j: nat)
    requires |ps| > 0 && !RunAt(s, t, ps, 0)
    ensures Covered(s, t, ps, j) <==> Covered(s, t, ps[1..], j)
  {
    CoveredInSuffix(s, t, ps, 1, j);
  }

  /** The replacement leaves exactly the positions in no occurrence, in order. */
  lemma {:induction false} PassLeaves(s: string, t: string, ps: seq<nat>)
    requires Within(s, ps) && Increasing(ps) && StartsApart(t)
    ensures Increasing(Pass(s, t, ps))
    ensures forall j :: j in Pass(s, t, ps) <==> j in ps && !Covered(s, t, ps, j)
    decreases |ps|
  {
    if |ps| > 0 {
      var n := if RunAt(s, t, ps, 0) then |t| else 1;
      PassLeaves(s, t, ps[n..]);
      forall j ensures j in Pass(s, t, ps) <==> j in ps && !Covered(s, t, ps, j) {
        if n == |t| && RunAt(s, t, ps, 0) {
          LeftAfterRun(s, t, ps, j);
        } else {
          LeftInTail(s, t, ps, j);
        }
      }
      if !RunAt(s, t, ps, 0) {
        FrontIsLeast(ps, Pass(s, t, ps[1..]));
      }
    }
  }

  lemma FrontIsLeast(ps: seq<nat>, rest: seq<nat>)
    requires |ps| > 0 && Increasing(ps) && Increasing(rest) && forall j :: j in rest ==> j in ps[1..]
    ensures Increasing([ps[0]] + rest)
  {
    forall i | 0 <= i < |rest| ensures ps[0] < rest[i] {
      assert rest[i] in ps[1..];
    }
  }

  lemma LeftAfterRun(s: string, t: string, ps: seq<nat>, j: nat)
    requires Increasing(ps) && StartsApart(t) && RunAt(s, t, ps, 0)
    ensures j in ps && !Covered(s, t, ps, j) <==> j in ps[|t|..] && !Covered(s, t, ps[|t|..], j)
  {
    CoveredAfterRun(s, t, ps, j);
    assert ps == ps[..|t|] + ps[|t|..];
  }

  lemma LeftInTail(s: string, t: string, ps: seq<nat>, j: nat)
    requires |ps| > 0 && Increasing(ps) && StartsApart(t) && !RunAt(s, t, ps, 0)
    ensures j in ps && !Covered(s, t, ps, j) <==> j == ps[0] || (j in ps[1..] && !Covered(s, t, ps[1..], j))
  {
    CoveredInTail(s, t, ps, j);
    FirstIsNotCovered(s, t, ps, ps[1..]);
    assert ps == [ps[0]] + ps[1..];
  }

  lemma FirstIsNotCovered(s: string, t: string, ps: seq<nat>, rest: seq<nat>)
    requires Increasing(ps) && |ps| > 0 && rest == ps[1..]
    ensures !Covered(s, t, rest, ps[0])
  {
  }

  // ----- Occurrences are spellings -----

  lemma RunIsSpelling(s: string, t: string, ps: seq<nat>, q: nat)
    requires Increasing(ps) && t != "" && RunAt(s, t, ps, q)
    ensures Spells(s, t, ps[q..q + |t|], Elements(ps))
  {
    var at := ps[q..q + |t|];
    assert forall k :: 0 <= k < |t| ==> at[k] == ps[q + k];
    forall j | j in Elements(ps) && at[0] <= j <= at[|at| - 1] ensures j in at {
      var i :| 0 <= i < |ps| && ps[i] == j;
      assert q <= i < q + |t|;
      assert at[i - q] == j;
    }
  }

  lemma {:induction false} SpellingFollows(s: string, t: string, ps: seq<nat>, at: seq<nat>, q: nat, k: nat)
    requires Increasing(ps) && Spells(s, t, at, Elements(ps)) && q < |ps| && ps[q] == at[0] && k < |at|
    ensures q + k < |ps| && at[k] == ps[q + k]
    decreases k
  {
    if k > 0 {
      SpellingFollows(s, t, ps, at, q, k - 1);
      assert at[k] in Elements(ps) && at[k - 1] < at[k];
      var m :| 0 <= m < |ps| && ps[m] == at[k];
      assert q + k <= m;
      var j := ps[q + k];
      assert j in Elements(ps) && at[0] <= j <= at[k] <= at[|at| - 1];
      var i :| 0 <= i < |at| && at[i] == j;
      assert at[k - 1] < at[i] <= at[k];
      assert i == k;
    }
  }

  lemma SpellingIsRun(s: string, t: string, ps: seq<nat>, at: seq<nat>) returns (q: nat)
    requires Within(s, ps) && Increasing(ps) && Spells(s, t, at, Elements(ps))
    ensures RunAt(s, t, ps, q) && at == ps[q..q + |t|]
  {
    assert at[0] in Elements(ps);
    q :| 0 <= q < |ps| && ps[q] == at[0];
    forall k | 0 <= k < |at| ensures q + k < |ps| && at[k] == ps[q + k] {
      SpellingFollows(s, t, ps, at, q, k);
    }
    SpellingFollows(s, t, ps, at, q, |at| - 1);
    assert ps[q..q + |t|] == at;
  }

  lemma CoveredIsSpelled(s: string, t: string, ps: seq<nat>, j: nat)
    requires Within(s, ps) && Increasing(ps) && t != ""
    ensures Covered(s, t, ps, j) <==> exists at :: Spells(s, t, at, Elements(ps)) && j in at
  {
    if q: nat :| RunAt(s, t, ps, q) && j in ps[q..q + |t|] {
      RunIsSpelling(s, t, ps, q);
    }
    if at :| Spells(s, t, at, Elements(ps)) && j in at {
      var q := SpellingIsRun(s, t, ps, at);
    }
  }

  lemma PassIsLeft(s: string, t: string, ps: seq<nat>)
    requires Within(s, ps) && Increasing(ps) && StartsApart(t)
    ensures Elements(Pass(s, t, ps)) == Left(s, t, Elements(ps))
  {
    PassLeaves(s, t, ps);
    forall j ensures Covered(s, t, ps, j) <==> exists at :: Spells(s, t, at, Elements(ps)) && j in at {
      CoveredIsSpelled(s, t, ps, j);
    }
  }

  lemma SpelledIsMatched(s: string, t: string, ps: seq<nat>)
    requires Within(s, ps) && Increasing(ps) && t != ""
    ensures (exists at :: Spells(s, t, at, Elements(ps))) <==> !MatchesNowhere(Scheme(t), Select(s, ps))
  {
    forall q | 0 <= q <= |ps|
      ensures RunAt(s, t, ps, q) <==> MatchLength(Scheme(t), Select(s, ps)[q..]) > 0
    {
      RunIsMatch(s, t, ps, q);
    }
    if at :| Spells(s, t, at, Elements(ps)) {
      var q := SpellingIsRun(s, t, ps, at);
      assert MatchLength(Scheme(t), Select(s, ps)[q..]) > 0;
    }
    if !MatchesNowhere(Scheme(t), Select(s, ps)) {
      var q :| 0 <= q < |ps| && MatchLength(Scheme(t), Select(s, ps)[q..]) > 0;
      RunIsSpelling(s, t, ps, q);
    }
  }

  // ----- Trimming -----

  predicate HasNoSpace(text: string) {
    forall k :: 0 <= k < |text| ==> !IsSpace(text[k])
  }

  lemma {:induction false} TrimKeepsSchemes(text: string, s: string)
    requires text != "" && HasNoSpace(text)
    ensures MatchesNowhere(Scheme(text), TrimStart(s)) <==> MatchesNowhere(Scheme(text), s)
    ensures MatchesNowhere(Scheme(text), TrimEnd(s)) <==> MatchesNowhere(Scheme(text), s)
    decreases |s|
  {
    if s != "" && IsSpace(s[0]) {
      TrimKeepsSchemes(text, s[1..]);
      assert Lower(s[0]) == s[0];
      NowhereInTail(Scheme(text), s);
    }
    if s != "" && IsSpace(s[|s| - 1]) {
      TrimKeepsSchemes(text, s[..|s| - 1]);
      NowhereBeforeSpace(text, s);
    }
  }

  lemma NowhereBeforeSpace(text: string, s: string)
    requires text != "" && HasNoSpace(text) && s != "" && IsSpace(s[|s| - 1])
    ensures MatchesNowhere(Scheme(text), s[..|s| - 1]) <==> MatchesNowhere(Scheme(text), s)
  {
    var n := |s| - 1;
    assert Lower(s[n]) == s[n];
    forall i | 0 <= i < n ensures StartsWithText(s[i..], text) <==> StartsWithText(s[..n][i..], text) {
      if StartsWithText(s[i..], text) {
        assert s[..n][i..] == s[i..][..n - i];
      }
      if StartsWithText(s[..n][i..], text) {
        assert forall k :: 0 <= k < |text| ==> s[i..][k] == s[..n][i..][k];
      }
    }
    assert Lower(s[n..][0]) == s[n];
  }

  // ----- The output -----

  lemma JavascriptStartsApart()
    ensures StartsApart(JAVASCRIPT.text) && HasNoSpace(JAVASCRIPT.text)
    ensures StartsWithText(JAVASCRIPT.text, JAVASCRIPT.text)
  {
  }

  lemma DataStartsApart()
    ensures StartsApart(DATA_HTML.text) && HasNoSpace(DATA_HTML.text)
  {
  }

  /** Two passes over a text leave `t` exactly when the text spells `t` over what neither of them removes. */
  lemma TwoPassesLeave(s: string, first: string, second: string, t: string)
    requires StartsApart(first) && StartsApart(second) && t != ""
    ensures !MatchesNowhere(Scheme(t), RemoveAll(Scheme(second), RemoveAll(Scheme(first), s)))
            <==> exists at :: Spells(s, t, at, Left(s, second, Left(s, first, Positions(s))))
  {
    var all := seq(|s|, i => i);
    assert Select(s, all) == s;
    assert Elements(all) == Positions(s);
    var kept := Pass(s, first, all);
    PassSelects(s, first, all);
    PassSelects(s, second, kept);
    PassLeaves(s, first, all);
    PassLeaves(s, second, kept);
    PassIsLeft(s, first, all);
    PassIsLeft(s, second, kept);
    SpelledIsMatched(s, t, Pass(s, second, kept));
  }

  lemma OutputSpells(content: string, t: string)
    requires t != "" && HasNoSpace(t) && StartsApart(JAVASCRIPT.text) && StartsApart(DATA_HTML.text)
    ensures var text := StripTags(content);
            !MatchesNowhere(Scheme(t), Sanitize(content))
            <==> exists at :: Spells(text, t, at, Left(text, DATA_HTML.text, Left(text, JAVASCRIPT.text, Positions(text))))
  {
    var d := RemoveAll(DATA_HTML, RemoveAll(JAVASCRIPT, StripTags(content)));
    TwoPassesLeave(StripTags(content), JAVASCRIPT.text, DATA_HTML.text, t);
    TrimKeepsSchemes(t, d);
    TrimKeepsSchemes(t, TrimStart(d));
  }

  /**
   * An output can hold a scheme: exactly when the tagless text spells it over the positions left when first the
   * spellings of "javascript:" and then, over what is left, those of "data:text/html" are removed.
   */
  lemma OutputHoldsScheme(content: string)
    ensures var text := StripTags(content);
            var left := Left(text, DATA_HTML.text, Left(text, JAVASCRIPT.text, Positions(text)));
            && (!MatchesNowhere(JAVASCRIPT, Sanitize(content)) <==> exists at :: Spells(text, JAVASCRIPT.text, at, left))
            && (!MatchesNowhere(DATA_HTML, Sanitize(content)) <==> exists at :: Spells(text, DATA_HTML.text, at, left))
  {
    JavascriptStartsApart();
    DataStartsApart();
    OutputSpells(content, JAVASCRIPT.text);
    OutputSpells(content, DATA_HTML.text);
  }

  lemma NoTagIsKept(content: string)
    requires forall i :: 0 <= i < |content| ==> content[i] != '<'
    ensures StripTags(content) == content
  {
    CleanIsNoTag(content);
    CleanHasNoMatch(content);
    NoTagNoScript(content);
    RemovedIsSubsequence(ScriptBlock, content);
    RemovedIsSubsequence(Tag, content);
  }

  /** A text that starts nowhere inside itself, in lower case, written inside itself. */
  ghost predicate IsNested(content: string, text: string) {
    && |text| > 1 && StartsApart(text) && StartsWithText(text, text)
    && content == [text[0]] + text + text[1..]
  }

  lemma InnerMatch(content: string, text: string)
    requires IsNested(content, text)
    ensures MatchLength(Scheme(text), content) == 0 && MatchLength(Scheme(text), content[1..]) == |text|
    ensures content[1..][|text|..] == text[1..]
  {
    assert content[1] == text[0] && Lower(content[1]) != text[1];
    assert forall k :: 0 <= k < |text| ==> content[1..][k] == text[k];
  }

  lemma OuterIsLeft(content: string, text: string)
    requires IsNested(content, text)
    ensures RemoveAll(Scheme(text), content) == text
  {
    InnerMatch(content, text);
    RemovedIsSubsequence(Scheme(text), text[1..]);
  }

  lemma ShortIsKept(text: string)
    requires |text| < |DATA_HTML.text|
    ensures RemoveAll(DATA_HTML, text) == text
  {
    RemovedIsSubsequence(DATA_HTML, text);
  }

  lemma TrimmedIsKept(text: string)
    requires IsTrimmed(text)
    ensures TrimEnd(TrimStart(text)) == text
  {
    TrimLengths(text);
  }

  lemma NestedIsLeft(content: string, text: string)
    requires IsNested(content, text) && Scheme(text) == JAVASCRIPT && |text| < |DATA_HTML.text| && IsTrimmed(text)
    requires forall i :: 0 <= i < |content| ==> content[i] != '<'
    ensures Sanitize(content) == text
  {
    NoTagIsKept(content);
    OuterIsLeft(content, text);
    assert RemoveAll(JAVASCRIPT, StripTags(content)) == text;
    ShortIsKept(text);
    TrimmedIsKept(text);
  }

  lemma JavascriptNests()
    ensures IsNested("jjavascript:avascript:", JAVASCRIPT.text)
  {
    JavascriptStartsApart();
    JavascriptInside(JAVASCRIPT.text);
  }

  lemma JavascriptInside(text: string)
    requires text == "javascript:"
    ensures "jjavascript:avascript:" == [text[0]] + text + text[1..]
  {
    assert text[1..] == "avascript:";
  }

  /** One pass over the scheme written inside itself leaves the scheme. */
  lemma SchemeIsLeft()
    ensures Sanitize("jjavascript:avascript:") == "javascript:"
  {
    JavascriptNests();
    NestedIsLeft("jjavascript:avascript:", JAVASCRIPT.text);
  }
}
