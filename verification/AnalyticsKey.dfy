/** The analytics cache key is canonical: equal keys are equal queries, whatever the order of the employee ids. */
module AnalyticsKey {
  import opened Common
  import TtlCache
  import Analytics

  type Scope = Analytics.Scope

  datatype TimeRange = TimeRange(range: string, from: Option<string>, to: Option<string>)

  const RANGES := {"today", "7d", "30d", "90d", "custom"}

  // ----- Sorting of ids, as the default array sort orders strings -----

  predicate LessEq(a: string, b: string) {
    |a| == 0 || (|b| > 0 && (a[0] < b[0] || (a[0] == b[0] && LessEq(a[1..], b[1..]))))
  }

  lemma {:induction false} LessEqTotal(a: string, b: string)
    ensures LessEq(a, b) || LessEq(b, a)
    ensures LessEq(a, b) && LessEq(b, a) ==> a == b
    decreases |a|
  {
    if |a| > 0 && |b| > 0 && a[0] == b[0] {
      LessEqTotal(a[1..], b[1..]);
      assert a == [a[0]] + a[1..] && b == [b[0]] + b[1..];
    }
  }

  lemma {:induction false} LessEqTransitive(a: string, b: string, c: string)
    requires LessEq(a, b) && LessEq(b, c)
    ensures LessEq(a, c)
    decreases |a|
  {
    if |a| > 0 && a[0] == b[0] && b[0] == c[0] {
      LessEqTransitive(a[1..], b[1..], c[1..]);
    }
  }

  /** A text comes first as a beginning of the other, or by the smaller character where they first differ. */
  ghost predicate ComesFirst(a: string, b: string, n: nat) {
    n <= |a| && n <= |b| && a[..n] == b[..n] && (n == |a| || (n < |b| && a[n] < b[n]))
  }

  lemma {:induction false} OrderIsLexicographic(a: string, b: string)
    ensures LessEq(a, b) <==> exists n: nat :: ComesFirst(a, b, n)
    decreases |a|
  {
    if |a| == 0 {
      assert ComesFirst(a, b, 0);
    } else if |b| > 0 && a[0] == b[0] {
      OrderIsLexicographic(a[1..], b[1..]);
      if n: nat :| ComesFirst(a[1..], b[1..], n) {
        assert a[..n + 1] == [a[0]] + a[1..][..n] && b[..n + 1] == [b[0]] + b[1..][..n];
        assert ComesFirst(a, b, n + 1);
      }
      if n: nat :| ComesFirst(a, b, n) {
        FirstIsLater(a, b, n);
      }
    } else if |b| > 0 && a[0] < b[0] {
      assert ComesFirst(a, b, 0);
    } else {
      forall n: nat ensures !ComesFirst(a, b, n) {
        if 0 < n <= |a| && n <= |b| {
          assert a[..n][0] == a[0] && b[..n][0] == b[0];
        }
      }
    }
  }

  lemma FirstIsLater(a: string, b: string, n: nat)
    requires |a| > 0 && |b| > 0 && a[0] == b[0] && ComesFirst(a, b, n)
    ensures n > 0 && ComesFirst(a[1..], b[1..], n - 1)
  {
    assert a[1..][..n - 1] == a[..n][1..] && b[1..][..n - 1] == b[..n][1..];
  }

  function Insert(x: string, xs: seq<string>): seq<string> {
    if |xs| == 0 || LessEq(x, xs[0]) then [x] + xs else [xs[0]] + Insert(x, xs[1..])
  }

  function Sorted(xs: seq<string>): seq<string> {
    if |xs| == 0 then [] else Insert(xs[0], Sorted(xs[1..]))
  }

  ghost predicate InOrder(xs: seq<string>) {
    forall i, j :: 0 <= i < j < |xs| ==> LessEq(xs[i], xs[j])
  }

  lemma {:induction false} InsertKeeps(x: string, xs: seq<string>)
    requires InOrder(xs)
    ensures InOrder(Insert(x, xs)) && multiset(Insert(x, xs)) == multiset{x} + multiset(xs)
    decreases |xs|
  {
    if |xs| > 0 {
      assert xs == [xs[0]] + xs[1..];
      LessEqTotal(x, xs[0]);
      if LessEq(x, xs[0]) {
        forall j | 0 <= j < |xs| ensures LessEq(x, xs[j]) {
          if j > 0 { LessEqTransitive(x, xs[0], xs[j]); }
        }
        PrependKeeps(x, xs);
      } else {
        var rest := Insert(x, xs[1..]);
        InsertKeeps(x, xs[1..]);
        StaysAbove(xs[0], x, xs[1..], rest);
        PrependKeeps(xs[0], rest);
      }
    }
  }

  lemma PrependKeeps(x: string, xs: seq<string>)
    requires InOrder(xs) && forall j :: 0 <= j < |xs| ==> LessEq(x, xs[j])
    ensures InOrder([x] + xs) && multiset([x] + xs) == multiset{x} + multiset(xs)
  {
  }

  /** Inserting an element that is not below a bound keeps every element above it. */
  lemma StaysAbove(low: string, x: string, xs: seq<string>, rest: seq<string>)
    requires LessEq(low, x) && (forall j :: 0 <= j < |xs| ==> LessEq(low, xs[j]))
    requires multiset(rest) == multiset{x} + multiset(xs)
    ensures forall j :: 0 <= j < |rest| ==> LessEq(low, rest[j])
  {
    forall j | 0 <= j < |rest| ensures LessEq(low, rest[j]) {
      assert rest[j] in multiset(rest);
      assert rest[j] == x || rest[j] in xs;
    }
  }

  lemma {:induction false} SortedKeeps(xs: seq<string>)
    ensures InOrder(Sorted(xs)) && multiset(Sorted(xs)) == multiset(xs)
    decreases |xs|
  {
    if |xs| > 0 {
      SortedKeeps(xs[1..]);
      InsertKeeps(xs[0], Sorted(xs[1..]));
      assert xs == [xs[0]] + xs[1..];
    }
  }

  /** Two ordered lists with the same elements are the same list. */
  lemma {:induction false} OrderedIsUnique(xs: seq<string>, ys: seq<string>)
    requires InOrder(xs) && InOrder(ys) && multiset(xs) == multiset(ys)
    ensures xs == ys
    decreases |xs|
  {
    if |xs| == 0 {
      assert |multiset(ys)| == |ys|;
    } else {
      assert xs[0] in multiset(ys);
      assert |ys| > 0;
      assert ys[0] in multiset(xs);
      FirstIsLeast(xs, ys[0]);
      FirstIsLeast(ys, xs[0]);
      LessEqTotal(xs[0], ys[0]);
      HeadAndTail(xs);
      HeadAndTail(ys);
      OrderedIsUnique(xs[1..], ys[1..]);
    }
  }

  lemma HeadAndTail(xs: seq<string>)
    requires |xs| > 0
    ensures xs == [xs[0]] + xs[1..] && multiset(xs[1..]) == multiset(xs) - multiset{xs[0]}
  {
  }

  lemma {:induction false} Reflexive(a: string)
    ensures LessEq(a, a)
    decreases |a|
  {
    if |a| > 0 { Reflexive(a[1..]); }
  }

  lemma FirstIsLeast(xs: seq<string>, x: string)
    requires InOrder(xs) && x in xs
    ensures LessEq(xs[0], x)
  {
    Reflexive(x);
  }

  // ----- The key -----

  function ScopeKey(scope: Scope): string {
    match scope
    case All => "all"
    case Employees(ids) => "emp:" + Join(Sorted(ids), ",")
  }

  function RangeKey(r: TimeRange): string {
    r.range + ":" + r.from.GetOr("") + ":" + r.to.GetOr("")
  }

  function CacheKey(prefix: string, scope: Scope, r: TimeRange, extra: string): string {
    prefix + "|" + ScopeKey(scope) + "|" + RangeKey(r) + "|" + extra
  }

  /** Text without the separator `c`. */
  predicate Free(s: string, c: char) {
    forall i :: 0 <= i < |s| ==> s[i] != c
  }

  /** An id is not empty and holds neither separator. */
  predicate IsId(s: string) {
    s != "" && Free(s, '|') && Free(s, ',')
  }

  predicate IsDigit(c: char) {
    '0' <= c <= '9'
  }

  /** The shape of `toISOString` for years 0 to 9999: `YYYY-MM-DDTHH:mm:ss.sssZ`. */
  predicate IsIso(s: string) {
    |s| == 24 && forall i :: 0 <= i < 24 ==>
      if i == 4 || i == 7 then s[i] == '-'
      else if i == 10 then s[i] == 'T'
      else if i == 13 || i == 16 then s[i] == ':'
      else if i == 19 then s[i] == '.'
      else if i == 23 then s[i] == 'Z'
      else IsDigit(s[i])
  }

  ghost predicate WellFormed(prefix: string, scope: Scope, r: TimeRange) {
    && Free(prefix, '|')
    && (scope.Employees? ==> forall i :: 0 <= i < |scope.ids| ==> IsId(scope.ids[i]))
    && r.range in RANGES && (r.from.Some? ==> IsIso(r.from.value)) && (r.to.Some? ==> IsIso(r.to.value))
  }

  ghost predicate SameScope(a: Scope, b: Scope) {
    match (a, b)
    case (All, All) => true
    case (Employees(x), Employees(y)) => multiset(x) == multiset(y)
    case _ => false
  }

  /** The text before the first separator determines itself and the rest. */
  lemma SplitsOnce(a: string, b: string, x: string, y: string, c: char)
    requires Free(a, c) && Free(b, c)
    requires a + [c] + x == b + [c] + y
    ensures a == b && x == y
  {
    var s := a + [c] + x;
    assert s[|a|] == c && (b + [c] + y)[|b|] == c;
    assert forall i :: 0 <= i < |a| ==> s[i] == a[i];
    assert forall i :: 0 <= i < |b| ==> (b + [c] + y)[i] == b[i];
    assert s[..|a|] == a && (b + [c] + y)[..|b|] == b;
    assert s[|a| + 1..] == x && (b + [c] + y)[|b| + 1..] == y;
  }

  lemma {:induction false} JoinInjective(xs: seq<string>, ys: seq<string>)
    requires forall i :: 0 <= i < |xs| ==> IsId(xs[i])
    requires forall i :: 0 <= i < |ys| ==> IsId(ys[i])
    requires Join(xs, ",") == Join(ys, ",")
    ensures xs == ys
    decreases |xs|
  {
    if |xs| == 0 || |ys| == 0 {
      JoinNotEmpty(xs);
      JoinNotEmpty(ys);
    } else if |xs| == 1 && |ys| == 1 {
    } else if |xs| == 1 {
      HasComma(ys, xs[0]);
    } else if |ys| == 1 {
      HasComma(xs, ys[0]);
    } else {
      SplitsOnce(xs[0], ys[0], Join(xs[1..], ","), Join(ys[1..], ","), ',');
      JoinInjective(xs[1..], ys[1..]);
      assert xs == [xs[0]] + xs[1..] && ys == [ys[0]] + ys[1..];
    }
  }

  lemma JoinNotEmpty(xs: seq<string>)
    requires forall i :: 0 <= i < |xs| ==> IsId(xs[i])
    ensures Join(xs, ",") == "" <==> |xs| == 0
  {
  }

  lemma HasComma(xs: seq<string>, id: string)
    requires |xs| > 1 && Free(id, ',')
    ensures Join(xs, ",") != id
  {
    assert Join(xs, ",")[|xs[0]|] == ',';
  }

  lemma {:induction false} JoinFree(xs: seq<string>)
    requires forall i :: 0 <= i < |xs| ==> IsId(xs[i])
    ensures Free(Join(xs, ","), '|')
    decreases |xs|
  {
    if |xs| > 1 {
      JoinFree(xs[1..]);
    }
  }

  lemma SortedIds(ids: seq<string>)
    requires forall i :: 0 <= i < |ids| ==> IsId(ids[i])
    ensures forall i :: 0 <= i < |Sorted(ids)| ==> IsId(Sorted(ids)[i])
  {
    SortedKeeps(ids);
    forall i | 0 <= i < |Sorted(ids)| ensures IsId(Sorted(ids)[i]) {
      assert Sorted(ids)[i] in multiset(ids);
    }
  }

  lemma ScopeKeyCanonical(a: Scope, b: Scope)
    requires a.Employees? ==> forall i :: 0 <= i < |a.ids| ==> IsId(a.ids[i])
    requires b.Employees? ==> forall i :: 0 <= i < |b.ids| ==> IsId(b.ids[i])
    ensures ScopeKey(a) == ScopeKey(b) <==> SameScope(a, b)
    ensures Free(ScopeKey(a), '|')
  {
    if a.Employees? {
      SortedKeeps(a.ids);
      SortedIds(a.ids);
      JoinFree(Sorted(a.ids));
    }
    if a.Employees? && b.Employees? {
      SortedKeeps(b.ids);
      SortedIds(b.ids);
      if ScopeKey(a) == ScopeKey(b) {
        assert ScopeKey(a)[4..] == Join(Sorted(a.ids), ",") && ScopeKey(b)[4..] == Join(Sorted(b.ids), ",");
        JoinInjective(Sorted(a.ids), Sorted(b.ids));
      } else if SameScope(a, b) {
        OrderedIsUnique(Sorted(a.ids), Sorted(b.ids));
      }
    } else if a.Employees? {
      assert ScopeKey(a)[0] == 'e';
    } else if b.Employees? {
      assert ScopeKey(b)[0] == 'e';
    }
  }

  lemma RangesFree(range: string)
    requires range in RANGES
    ensures Free(range, ':') && Free(range, '|')
  {
  }

  /** Two optional timestamps, joined by a colon they also contain, are still told apart. */
  lemma TimesInjective(a: Option<string>, b: Option<string>, x: Option<string>, y: Option<string>)
    requires (a.Some? ==> IsIso(a.value)) && (b.Some? ==> IsIso(b.value))
    requires (x.Some? ==> IsIso(x.value)) && (y.Some? ==> IsIso(y.value))
    requires a.GetOr("") + ":" + b.GetOr("") == x.GetOr("") + ":" + y.GetOr("")
    ensures a == x && b == y
  {
    var s, t := a.GetOr("") + ":" + b.GetOr(""), x.GetOr("") + ":" + y.GetOr("");
    if a.Some? {
      assert IsDigit(s[0]) && s[0] == a.value[0];
    }
    if x.Some? {
      assert IsDigit(t[0]) && t[0] == x.value[0];
    }
    assert a.Some? <==> x.Some?;
    var n := |a.GetOr("")|;
    assert s[..n] == a.GetOr("") && t[..n] == x.GetOr("");
    assert s[n + 1..] == b.GetOr("") && t[n + 1..] == y.GetOr("");
  }

  lemma RangeKeyParts(r: TimeRange)
    ensures RangeKey(r) == r.range + [':'] + (r.from.GetOr("") + ":" + r.to.GetOr(""))
  {
  }

  lemma RangeKeyFree(r: TimeRange)
    requires WellFormed("", Analytics.All, r)
    ensures Free(RangeKey(r), '|')
  {
    RangesFree(r.range);
    assert Free(r.from.GetOr(""), '|') && Free(r.to.GetOr(""), '|');
  }

  lemma RangeKeyInjective(a: TimeRange, b: TimeRange)
    requires WellFormed("", Analytics.All, a) && WellFormed("", Analytics.All, b)
    requires RangeKey(a) == RangeKey(b)
    ensures a == b
  {
    RangesFree(a.range);
    RangesFree(b.range);
    RangeKeyParts(a);
    RangeKeyParts(b);
    SplitsOnce(a.range, b.range, a.from.GetOr("") + ":" + a.to.GetOr(""), b.from.GetOr("") + ":" + b.to.GetOr(""), ':');
    TimesInjective(a.from, a.to, b.from, b.to);
  }

  /** Four fields, the first three without the separator. */
  function Fields(a: string, b: string, c: string, d: string): string {
    a + ['|'] + (b + ['|'] + (c + ['|'] + d))
  }

  lemma FieldsInjective(a: string, b: string, c: string, d: string, a': string, b': string, c': string, d': string)
    requires Free(a, '|') && Free(b, '|') && Free(c, '|') && Free(a', '|') && Free(b', '|') && Free(c', '|')
    requires Fields(a, b, c, d) == Fields(a', b', c', d')
    ensures a == a' && b == b' && c == c' && d == d'
  {
    SplitsOnce(a, a', b + ['|'] + (c + ['|'] + d), b' + ['|'] + (c' + ['|'] + d'), '|');
    SplitsOnce(b, b', c + ['|'] + d, c' + ['|'] + d', '|');
    SplitsOnce(c, c', d, d', '|');
  }

  lemma CacheKeyFields(prefix: string, scope: Scope, r: TimeRange, extra: string)
    ensures CacheKey(prefix, scope, r, extra) == Fields(prefix, ScopeKey(scope), RangeKey(r), extra)
  {
  }

  /** Two keys are equal exactly when prefix, scope, range and extra agree; ids may come in any order. */
  lemma KeyIsCanonical(
    prefix: string, scope: Scope, r: TimeRange, extra: string,
    prefix': string, scope': Scope, r': TimeRange, extra': string)
    requires WellFormed(prefix, scope, r) && WellFormed(prefix', scope', r')
    ensures CacheKey(prefix, scope, r, extra) == CacheKey(prefix', scope', r', extra')
            <==> prefix == prefix' && SameScope(scope, scope') && r == r' && extra == extra'
  {
    ScopeKeyCanonical(scope, scope');
    ScopeKeyCanonical(scope', scope);
    RangeKeyFree(r);
    RangeKeyFree(r');
    CacheKeyFields(prefix, scope, r, extra);
    CacheKeyFields(prefix', scope', r', extra');
    if CacheKey(prefix, scope, r, extra) == CacheKey(prefix', scope', r', extra') {
      FieldsInjective(prefix, ScopeKey(scope), RangeKey(r), extra, prefix', ScopeKey(scope'), RangeKey(r'), extra');
      RangeKeyInjective(r, r');
    }
  }

  // ----- Composed with the cache -----

  /** One analytics request: the tenant and endpoint make the prefix. */
  datatype Query = Query(tenant: string, endpoint: string, scope: Scope, range: TimeRange, extra: string)

  function QueryKey(q: Query): string {
    CacheKey(q.tenant + ":" + q.endpoint, q.scope, q.range, q.extra)
  }

  ghost predicate GoodQuery(q: Query) {
    Free(q.tenant, ':') && WellFormed(q.tenant + ":" + q.endpoint, q.scope, q.range)
  }

  ghost predicate SameQuery(p: Query, q: Query) {
    p.tenant == q.tenant && p.endpoint == q.endpoint && SameScope(p.scope, q.scope) && p.range == q.range && p.extra == q.extra
  }

  lemma QueryKeyCanonical(p: Query, q: Query)
    requires GoodQuery(p) && GoodQuery(q)
    ensures QueryKey(p) == QueryKey(q) <==> SameQuery(p, q)
  {
    KeyIsCanonical(p.tenant + ":" + p.endpoint, p.scope, p.range, p.extra,
                   q.tenant + ":" + q.endpoint, q.scope, q.range, q.extra);
    if p.tenant + ":" + p.endpoint == q.tenant + ":" + q.endpoint {
      SplitsOnce(p.tenant, q.tenant, p.endpoint, q.endpoint, ':');
    }
  }

  /** Every put of the history was made for a query, under that query's key and with that query's answer. */
  ghost predicate AnswersOf<V(!new)>(history: seq<TtlCache.Op<V>>, queries: seq<Query>, answer: Query -> V) {
    |queries| == |history| && forall i :: 0 <= i < |history| && history[i].Put? ==>
      GoodQuery(queries[i]) && history[i].key == QueryKey(queries[i]) && history[i].value == answer(queries[i])
  }

  lemma {:induction false} LatestIsPut<V>(history: seq<TtlCache.Op<V>>, key: string) returns (i: nat)
    requires TtlCache.Latest(history, key).Some?
    ensures i < |history| && history[i].Put? && history[i].key == key && TtlCache.Latest(history, key) == Some(history[i])
    decreases |history|
  {
    var n := |history| - 1;
    if history[n].Put? && history[n].key == key {
      i := n;
    } else {
      i := LatestIsPut(history[..n], key);
    }
  }

  /** A hit never crosses tenants, endpoints, scopes or ranges: what it returns was computed for the same query. */
  lemma HitIsForSameQuery<V(!new)>(
    namespace: string, history: seq<TtlCache.Op<V>>, queries: seq<Query>, answer: Query -> V, q: Query, now: int)
    requires GoodQuery(q) && AnswersOf(history, queries, answer)
    requires TtlCache.Hit(TtlCache.Replay(namespace, history), namespace, QueryKey(q), now).Some?
    ensures exists i :: 0 <= i < |queries| && SameQuery(queries[i], q)
              && TtlCache.Hit(TtlCache.Replay(namespace, history), namespace, QueryKey(q), now)
                 == Some(answer(queries[i]))
  {
    TtlCache.HitIsFresh(namespace, history, QueryKey(q), now);
    var i := LatestIsPut(history, QueryKey(q));
    QueryKeyCanonical(queries[i], q);
  }
}
