/** Automatic assignment goes round the pool: fairness over any window of any run. */
module ChatRoundRobin {
  import opened Common
  import opened ChatModel
  import opened ChatInvariants

  /** The employees assigned automatically in a tenant, in order. */
  function AutoPicks(log: seq<Assignment>, tenant: string): seq<string> {
    if |log| == 0 then []
    else
      var last := log[|log| - 1];
      AutoPicks(log[..|log| - 1], tenant)
      + (if last.tenant == tenant && last.assignedBy.None? then [last.employee] else [])
  }

  ghost predicate GoodPool(pool: seq<Employee>) {
    && |pool| > 0
    && (forall i :: 0 <= i < |pool| ==> pool[i].id != "")
    && (forall i, j :: 0 <= i < j < |pool| ==> pool[i].id != pool[j].id)
  }

  /** The position the next pick takes after `last`; an agent no longer in the pool counts as before the first. */
  function NextPosition(pool: seq<Employee>, last: Option<string>): nat
    requires |pool| > 0
  {
    ((if last.Some? && last.value != "" then IndexOfAgent(pool, last.value) else -1) + 1) % |pool|
  }

  lemma PickIsNextPosition(pool: seq<Employee>, last: Option<string>)
    requires |pool| > 0
    ensures PickNext(pool, last) == Some(pool[NextPosition(pool, last)])
  {
  }

  lemma {:induction false} LastPick(log: seq<Assignment>, tenant: string)
    ensures var picks := AutoPicks(log, tenant);
            LastAutoAssigned(log, tenant) == if |picks| == 0 then None else Some(picks[|picks| - 1])
    decreases |log|
  {
    if |log| > 0 {
      LastPick(log[..|log| - 1], tenant);
    }
  }

  /** A step adds at most one automatic pick to a tenant, and it is the pool's next position. */
  lemma StepPicks(s: Chat, e: Event, tenant: string)
    requires ChatSound(s) && |Pool(s, tenant)| > 0
    ensures var before, after := AutoPicks(s.assignments, tenant), AutoPicks(Apply(s, e).assignments, tenant);
            var pool := Pool(s, tenant);
            after == before
            || after == before + [pool[NextPosition(pool, LastAutoAssigned(s.assignments, tenant))].id]
  {
    var t := Apply(s, e);
    StepLog(s, e);
    var log := s.assignments;
    if t.assignments != log {
      assert t.assignments[..|log|] == log;
      var entry := t.assignments[|log|];
      assert AutoPicks(t.assignments, tenant) ==
             AutoPicks(log, tenant) + (if entry.tenant == tenant && entry.assignedBy.None? then [entry.employee] else []);
      PickIsNextPosition(Pool(s, tenant), LastAutoAssigned(log, tenant));
    }
  }

  /** The log grows by at most one entry; an automatic one is the pick of its tenant's pool. */
  lemma StepLog(s: Chat, e: Event)
    ensures var t := Apply(s, e);
            t.assignments == s.assignments
            || (|t.assignments| == |s.assignments| + 1 && t.assignments[..|s.assignments|] == s.assignments
                && var entry := t.assignments[|s.assignments|];
                   entry.assignedBy.None? ==>
                     && PickNextAssignableEmployee(s, entry.tenant).Some?
                     && PickNextAssignableEmployee(s, entry.tenant).value.id == entry.employee)
  {
  }

  lemma PositionOf(pool: seq<Employee>, i: nat)
    requires GoodPool(pool) && i < |pool|
    ensures IndexOfAgent(pool, pool[i].id) == i
  {
  }

  /** The agent `n` positions after position `first`. */
  function Turn(pool: seq<Employee>, first: nat, n: nat): string
    requires |pool| > 0
  {
    pool[(first + n) % |pool|].id
  }

  /** Pick number `j`, counted from `start`, is the agent that many positions after the first. */
  ghost predicate Cyclic(picks: seq<string>, start: nat, pool: seq<Employee>, first: nat)
    requires |pool| > 0
  {
    start <= |picks| && forall j :: start <= j < |picks| ==> picks[j] == Turn(pool, first, j - start)
  }

  /** The tenant's pool is `pool` throughout the run; other tenants' pools may change. */
  ghost predicate PoolFixed(s: Chat, es: seq<Event>, tenant: string, pool: seq<Employee>) {
    forall i :: 0 <= i <= |es| ==> tenant in Run(s, es[..i]).pools && Run(s, es[..i]).pools[tenant] == pool
  }

  lemma AfterTurn(pool: seq<Employee>, first: nat, n: nat)
    requires GoodPool(pool)
    ensures pool[NextPosition(pool, Some(Turn(pool, first, n)))].id == Turn(pool, first, n + 1)
  {
    PositionOf(pool, (first + n) % |pool|);
    SuccessorMod(first + n, |pool|);
  }

  lemma SuccessorMod(x: nat, k: nat)
    requires k > 0
    ensures (x % k + 1) % k == (x + 1) % k
  {
    DivUnique(x + 1, k, x / k + (x % k + 1) / k, (x % k + 1) % k);
  }

  lemma FirstTurn(pool: seq<Employee>, last: Option<string>)
    requires |pool| > 0
    ensures pool[NextPosition(pool, last)].id == Turn(pool, NextPosition(pool, last), 0)
  {
    DivUnique(NextPosition(pool, last), |pool|, 0, NextPosition(pool, last));
  }

  lemma CyclicStep(picks: seq<string>, start: nat, pool: seq<Employee>, first: nat, last: Option<string>)
    requires GoodPool(pool) && Cyclic(picks, start, pool, first)
    requires if |picks| == start then NextPosition(pool, last) == first else last == Some(picks[|picks| - 1])
    ensures Cyclic(picks + [pool[NextPosition(pool, last)].id], start, pool, first)
  {
    if |picks| == start {
      FirstTurn(pool, last);
    } else {
      AfterTurn(pool, first, |picks| - 1 - start);
    }
  }

  lemma StepIsCyclic(s: Chat, e: Event, tenant: string, pool: seq<Employee>, start: nat, first: nat)
    requires ChatSound(s) && GoodPool(pool) && Pool(s, tenant) == pool
    requires Cyclic(AutoPicks(s.assignments, tenant), start, pool, first)
    requires |AutoPicks(s.assignments, tenant)| == start ==>
               NextPosition(pool, LastAutoAssigned(s.assignments, tenant)) == first
    ensures Cyclic(AutoPicks(Apply(s, e).assignments, tenant), start, pool, first)
    ensures AutoPicks(s.assignments, tenant) <= AutoPicks(Apply(s, e).assignments, tenant)
  {
    StepPicks(s, e, tenant);
    LastPick(s.assignments, tenant);
    CyclicStep(AutoPicks(s.assignments, tenant), start, pool, first, LastAutoAssigned(s.assignments, tenant));
  }

  /** Over any run with a fixed pool, whatever else is interleaved, a tenant's automatic picks go round the pool. */
  lemma {:induction false} EveryRunIsCyclic(s: Chat, es: seq<Event>, tenant: string, pool: seq<Employee>)
    requires ChatSound(s) && GoodPool(pool) && PoolFixed(s, es, tenant, pool)
    ensures var before, after := AutoPicks(s.assignments, tenant), AutoPicks(Run(s, es).assignments, tenant);
            && before <= after
            && Cyclic(after, |before|, pool, NextPosition(pool, LastAutoAssigned(s.assignments, tenant)))
    decreases |es|
  {
    if |es| > 0 {
      var front := es[..|es| - 1];
      forall i | 0 <= i <= |front|
        ensures tenant in Run(s, front[..i]).pools && Run(s, front[..i]).pools[tenant] == pool
      {
        assert front[..i] == es[..i];
      }
      EveryRunIsCyclic(s, front, tenant, pool);
      EveryRunIsSound(s, front);
      assert front[..|front|] == front;
      SamePicksSameLast(s.assignments, Run(s, front).assignments, tenant);
      StepIsCyclic(Run(s, front), es[|es| - 1], tenant, pool, |AutoPicks(s.assignments, tenant)|,
                   NextPosition(pool, LastAutoAssigned(s.assignments, tenant)));
    }
  }

  lemma SamePicksSameLast(a: seq<Assignment>, b: seq<Assignment>, tenant: string)
    requires AutoPicks(a, tenant) <= AutoPicks(b, tenant)
    ensures |AutoPicks(a, tenant)| == |AutoPicks(b, tenant)| ==>
              LastAutoAssigned(a, tenant) == LastAutoAssigned(b, tenant)
  {
    LastPick(a, tenant);
    LastPick(b, tenant);
  }

  // ----- Fairness -----

  function Count(picks: seq<string>, id: string): nat {
    if |picks| == 0 then 0
    else Count(picks[..|picks| - 1], id) + if picks[|picks| - 1] == id then 1 else 0
  }

  /** Among `m` numbers from `c` on, those that leave remainder `r` by `k`. */
  function CountMod(c: int, m: nat, k: nat, r: nat): nat
    requires k > 0
  {
    if m == 0 then 0 else CountMod(c, m - 1, k, r) + if (c + m - 1) % k == r then 1 else 0
  }

  lemma {:induction false} CountModClosed(c: int, m: nat, k: nat, r: nat)
    requires r < k
    ensures CountMod(c, m, k, r) == (c + m - 1 - r) / k - (c - 1 - r) / k
    decreases m
  {
    if m > 0 {
      CountModClosed(c, m - 1, k, r);
      DivStep(c + m - 1 - r, k);
      ShiftMod(c + m - 1, k, r);
    }
  }

  lemma ShiftMod(x: int, k: nat, r: nat)
    requires r < k
    ensures x % k == r <==> (x - r) % k == 0
  {
    if x % k == r {
      DivUnique(x - r, k, x / k, 0);
    }
    if (x - r) % k == 0 {
      DivUnique(x, k, (x - r) / k, r);
    }
  }

  lemma SpreadOfQuotients(a: int, m: nat, k: nat)
    requires k > 0
    ensures m / k <= (a + m) / k - a / k <= (m + k - 1) / k
  {
    var q, r := a / k + m / k, a % k + m % k;
    assert a + m == (a / k) * k + (m / k) * k + r;
    assert (a / k) * k + (m / k) * k == q * k;
    if r < k {
      DivUnique(a + m, k, q, r);
    } else {
      assert (q + 1) * k == q * k + k;
      DivUnique(a + m, k, q + 1, r - k);
    }
    if m % k == 0 {
      DivUnique(m + k - 1, k, m / k, k - 1);
    } else {
      assert (m / k + 1) * k == (m / k) * k + k;
      DivUnique(m + k - 1, k, m / k + 1, m % k - 1);
    }
  }

  lemma {:induction false} CountIsCountMod(
    picks: seq<string>, start: nat, pool: seq<Employee>, first: nat, a: nat, m: nat, r: nat)
    requires GoodPool(pool) && Cyclic(picks, start, pool, first)
    requires start <= a && a + m <= |picks| && r < |pool|
    ensures Count(picks[a..a + m], pool[r].id) == CountMod(first + (a - start), m, |pool|, r)
    decreases m
  {
    if m > 0 {
      var window := picks[a..a + m];
      assert window[..m - 1] == picks[a..a + m - 1];
      CountIsCountMod(picks, start, pool, first, a, m - 1, r);
      assert window[m - 1] == Turn(pool, first, a + m - 1 - start);
      assert first + (a - start) + m - 1 == first + (a + m - 1 - start);
    }
  }

  lemma CyclicIsFair(picks: seq<string>, start: nat, pool: seq<Employee>, first: nat, a: nat, m: nat, r: nat)
    requires GoodPool(pool) && Cyclic(picks, start, pool, first)
    requires start <= a && a + m <= |picks| && r < |pool|
    ensures m / |pool| <= Count(picks[a..a + m], pool[r].id) <= (m + |pool| - 1) / |pool|
  {
    var c := first + (a - start);
    CountIsCountMod(picks, start, pool, first, a, m, r);
    CountModClosed(c, m, |pool|, r);
    SpreadOfQuotients(c - 1 - r, m, |pool|);
  }

  /**
   * Fairness: of any `m` consecutive automatic assignments a tenant gets in a run with a fixed pool of `k`
   * agents, each agent gets floor(m/k) or ceil(m/k).
   */
  lemma EveryWindowIsFair(s: Chat, es: seq<Event>, tenant: string, pool: seq<Employee>, a: nat, m: nat, r: nat)
    requires ChatSound(s) && GoodPool(pool) && PoolFixed(s, es, tenant, pool) && r < |pool|
    requires |AutoPicks(s.assignments, tenant)| <= a && a + m <= |AutoPicks(Run(s, es).assignments, tenant)|
    ensures var count := Count(AutoPicks(Run(s, es).assignments, tenant)[a..a + m], pool[r].id);
            m / |pool| <= count <= (m + |pool| - 1) / |pool|
  {
    EveryRunIsCyclic(s, es, tenant, pool);
    CyclicIsFair(AutoPicks(Run(s, es).assignments, tenant), |AutoPicks(s.assignments, tenant)|, pool,
                 NextPosition(pool, LastAutoAssigned(s.assignments, tenant)), a, m, r);
  }
}
