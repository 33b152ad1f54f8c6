/** The lead KPIs, the funnel and the employee table: three aggregates of the same list of inquiries. */
module Analytics {
  import opened Common

  // ----- Inquiries, site visits and what a query sees of them -----

  /** The pipeline stages; the column is free text, so any other text is `Other`. */
  datatype Stage =
    | New | Contacted | Qualified | SiteVisitScheduled | SiteVisitCompleted | Negotiation | Booked | ClosedWon
    | ClosedLost
    | Other(text: string)

  type EmployeeId = id: string | id != "" witness "e"

  datatype Inquiry = Inquiry(
    tenantId: string,
    employeeId: Option<EmployeeId>,
    stage: Stage,
    createdAt: int,
    deleted: bool)

  datatype SiteVisit = SiteVisit(tenantId: string, employeeId: Option<EmployeeId>, scheduledAt: int)

  datatype Scope = All | Employees(ids: seq<EmployeeId>)

  datatype DateRange = DateRange(from: Option<int>, to: Option<int>) {
    predicate Contains(t: int) {
      (from.Some? ==> from.value <= t) && (to.Some? ==> t <= to.value)
    }
  }

  const NO_MATCH_UUID: EmployeeId := "00000000-0000-0000-0000-000000000000"

  predicate InScope(employeeId: Option<EmployeeId>, scope: Scope) {
    match scope
    case All => true
    case Employees(ids) =>
      if |ids| > 0 then employeeId.Some? && employeeId.value in ids else employeeId == Some(NO_MATCH_UUID)
  }

  predicate InquiryWhere(q: Inquiry, tenantId: string, scope: Scope, range: DateRange) {
    q.tenantId == tenantId && !q.deleted && range.Contains(q.createdAt) && InScope(q.employeeId, scope)
  }

  predicate SiteVisitWhere(v: SiteVisit, tenantId: string, scope: Scope, range: DateRange) {
    v.tenantId == tenantId && range.Contains(v.scheduledAt) && InScope(v.employeeId, scope)
  }

  /** The employee table narrows the inquiry filter to assigned inquiries when the scope does not already. */
  predicate AssignedWhere(q: Inquiry, tenantId: string, scope: Scope, range: DateRange) {
    InquiryWhere(q, tenantId, scope, range) && (scope.All? ==> q.employeeId.Some?)
  }

  function Inquiries(table: seq<Inquiry>, tenantId: string, scope: Scope, range: DateRange): seq<Inquiry> {
    Where(table, q => InquiryWhere(q, tenantId, scope, range))
  }

  function Visits(table: seq<SiteVisit>, tenantId: string, scope: Scope, range: DateRange): seq<SiteVisit> {
    Where(table, v => SiteVisitWhere(v, tenantId, scope, range))
  }

  // ----- Filtering and counting -----

  function Where<T>(xs: seq<T>, p: T -> bool): seq<T> {
    if |xs| == 0 then []
    else
      var x := xs[|xs| - 1];
      if p(x) then Where(xs[..|xs| - 1], p) + [x] else Where(xs[..|xs| - 1], p)
  }

  function CountIf<T>(xs: seq<T>, p: T -> bool): nat {
    if |xs| == 0 then 0 else CountIf(xs[..|xs| - 1], p) + if p(xs[|xs| - 1]) then 1 else 0
  }

  function Occurrences<K(==)>(xs: seq<K>, k: K): nat {
    if |xs| == 0 then 0 else Occurrences(xs[..|xs| - 1], k) + if xs[|xs| - 1] == k then 1 else 0
  }

  function SumOccurrences<K(==)>(ks: seq<K>, xs: seq<K>): nat {
    if |ks| == 0 then 0 else SumOccurrences(ks[..|ks| - 1], xs) + Occurrences(xs, ks[|ks| - 1])
  }

  ghost predicate Distinct<K(!new)>(ks: seq<K>) {
    forall i, j :: 0 <= i < j < |ks| ==> ks[i] != ks[j]
  }

  lemma {:induction false} OneMore<K(!new)>(ks: seq<K>, xs: seq<K>, x: K)
    requires Distinct(ks)
    ensures SumOccurrences(ks, xs + [x]) == SumOccurrences(ks, xs) + if x in ks then 1 else 0
    decreases |ks|
  {
    if |ks| > 0 {
      var front, k := ks[..|ks| - 1], ks[|ks| - 1];
      OneMore(front, xs, x);
      assert (xs + [x])[..|xs|] == xs;
      assert ks == front + [k];
    }
  }

  /** Adding up the counts of distinct keys counts the elements that have one of them. */
  lemma {:induction false} SumOfCounts<K(!new)>(ks: seq<K>, xs: seq<K>)
    requires Distinct(ks)
    ensures SumOccurrences(ks, xs) == CountIf(xs, x => x in ks)
    decreases |xs|
  {
    if |xs| == 0 {
      NoOccurrences(ks);
      assert xs == [];
    } else {
      var front, x := xs[..|xs| - 1], xs[|xs| - 1];
      SumOfCounts(ks, front);
      OneMore(ks, front, x);
      assert xs == front + [x];
    }
  }

  lemma {:induction false} NoOccurrences<K>(ks: seq<K>)
    ensures SumOccurrences(ks, []) == 0
    decreases |ks|
  {
    if |ks| > 0 { NoOccurrences(ks[..|ks| - 1]); }
  }

  /** Counting grows with the condition, and depends on it only at the elements. */
  lemma {:induction false} CountGrows<T(!new)>(xs: seq<T>, p: T -> bool, q: T -> bool)
    requires forall x :: x in xs && p(x) ==> q(x)
    ensures CountIf(xs, p) <= CountIf(xs, q)
    decreases |xs|
  {
    if |xs| > 0 {
      CountGrows(xs[..|xs| - 1], p, q);
    }
  }

  lemma {:induction false} CountSame<T(!new)>(xs: seq<T>, p: T -> bool, q: T -> bool)
    requires forall x :: x in xs ==> (p(x) <==> q(x))
    ensures CountIf(xs, p) == CountIf(xs, q)
  {
    CountGrows(xs, p, q);
    CountGrows(xs, q, p);
  }

  lemma {:induction false} OccurrencesAreCounted<K(!new)>(xs: seq<K>, k: K, p: K -> bool)
    requires forall x :: p(x) <==> x == k
    ensures Occurrences(xs, k) == CountIf(xs, p)
    decreases |xs|
  {
    if |xs| > 0 { OccurrencesAreCounted(xs[..|xs| - 1], k, p); }
  }

  lemma {:induction false} CountIsZero<T(!new)>(xs: seq<T>, p: T -> bool)
    ensures CountIf(xs, p) == 0 <==> forall x :: x in xs ==> !p(x)
    decreases |xs|
  {
    if |xs| > 0 {
      CountIsZero(xs[..|xs| - 1], p);
      assert xs == xs[..|xs| - 1] + [xs[|xs| - 1]];
    }
  }

  // ----- Grouped counts, as the database returns them in any order -----

  datatype Group<K> = Group(key: K, count: nat)

  ghost predicate IsGrouping<K(!new)>(groups: seq<Group<K>>, xs: seq<K>) {
    && (forall i, j :: 0 <= i < j < |groups| ==> groups[i].key != groups[j].key)
    && (forall i :: 0 <= i < |groups| ==> groups[i].key in xs && groups[i].count == Occurrences(xs, groups[i].key))
    && forall x :: x in xs ==> exists i :: 0 <= i < |groups| && groups[i].key == x
  }

  lemma {:induction false} AbsentIsZero<K>(xs: seq<K>, k: K)
    ensures k !in xs <==> Occurrences(xs, k) == 0
    decreases |xs|
  {
    if |xs| > 0 {
      AbsentIsZero(xs[..|xs| - 1], k);
      assert xs == xs[..|xs| - 1] + [xs[|xs| - 1]];
    }
  }

  // ----- The funnel -----

  /** Position on the happy path, which leaves out lost inquiries. */
  function Rank(stage: Stage): Option<nat> {
    match stage
    case New => Some(0)
    case Contacted => Some(1)
    case Qualified => Some(2)
    case SiteVisitScheduled => Some(3)
    case SiteVisitCompleted => Some(4)
    case Negotiation => Some(5)
    case Booked => Some(6)
    case ClosedWon => Some(7)
    case ClosedLost => None
    case Other(_) => None
  }

  predicate AtOrBeyond(stage: Stage, rank: nat) {
    stage != ClosedLost && Rank(stage).Some? && Rank(stage).value >= rank
  }

  const FUNNEL_STEPS: seq<Stage> := [New, Contacted, Qualified, SiteVisitScheduled, Negotiation, ClosedWon]

  const QUALIFIED_PLUS: seq<Stage> :=
    [Qualified, SiteVisitScheduled, SiteVisitCompleted, Negotiation, Booked, ClosedWon]

  /** The object the stage counts are copied into, with its keys in insertion order. */
  method ByStage(stageRows: seq<Group<Stage>>, ghost stages: seq<Stage>)
    returns (byStage: map<Stage, nat>, keys: seq<Stage>)
    requires IsGrouping(stageRows, stages)
    ensures Distinct(keys) && forall s :: s in stages ==> s in keys
    ensures forall s :: s in keys <==> s in byStage
    ensures forall s :: s in byStage ==> byStage[s] == Occurrences(stages, s)
  {
    byStage, keys := map[], [];
    for k := 0 to |stageRows|
      invariant |keys| == k && forall i :: 0 <= i < k ==> keys[i] == stageRows[i].key
      invariant forall s :: s in keys <==> s in byStage
      invariant forall s :: s in byStage ==> byStage[s] == Occurrences(stages, s)
    {
      byStage := byStage[stageRows[k].key := stageRows[k].count];
      keys := keys + [stageRows[k].key];
    }
  }

  function Counted(byStage: map<Stage, nat>, s: Stage): nat {
    if s in byStage then byStage[s] else 0
  }

  lemma CountedIs(byStage: map<Stage, nat>, stages: seq<Stage>, s: Stage)
    requires forall s :: s in stages ==> s in byStage
    requires forall s :: s in byStage ==> byStage[s] == Occurrences(stages, s)
    ensures Counted(byStage, s) == Occurrences(stages, s)
  {
    AbsentIsZero(stages, s);
  }

  method CountAtOrBeyond(byStage: map<Stage, nat>, keys: seq<Stage>, rank: nat, ghost stages: seq<Stage>)
    returns (count: nat)
    requires Distinct(keys) && forall s :: s in stages ==> s in keys
    requires forall s :: s in keys ==> s in byStage && byStage[s] == Occurrences(stages, s)
    ensures count == CountIf(stages, s => AtOrBeyond(s, rank))
  {
    count := 0;
    for k := 0 to |keys|
      invariant count == SumOccurrences(Where(keys[..k], s => AtOrBeyond(s, rank)), stages)
    {
      ghost var beyond := s => AtOrBeyond(s, rank);
      WhereGrows(keys, k, beyond);
      if keys[k] != ClosedLost {
        var r := Rank(keys[k]);
        if r.Some? && r.value >= rank {
          count := count + byStage[keys[k]];
        }
      }
      assert beyond(keys[k]) == AtOrBeyond(keys[k], rank);
    }
    assert keys[..|keys|] == keys;
    KeptCounts(keys, stages, rank);
  }

  lemma WhereGrows<K(!new)>(ks: seq<K>, k: nat, p: K -> bool)
    requires k < |ks|
    ensures Where(ks[..k + 1], p) == if p(ks[k]) then Where(ks[..k], p) + [ks[k]] else Where(ks[..k], p)
    ensures forall xs: seq<K> :: SumOccurrences(Where(ks[..k], p) + [ks[k]], xs)
                                == SumOccurrences(Where(ks[..k], p), xs) + Occurrences(xs, ks[k])
  {
    assert ks[..k + 1][..k] == ks[..k];
    var kept := Where(ks[..k], p);
    assert (kept + [ks[k]])[..|kept|] == kept;
  }

  lemma {:induction false} WhereKeeps<K(!new)>(ks: seq<K>, p: K -> bool)
    ensures forall k :: k in Where(ks, p) <==> k in ks && p(k)
    ensures Distinct(ks) ==> Distinct(Where(ks, p))
    decreases |ks|
  {
    if |ks| > 0 {
      WhereKeeps(ks[..|ks| - 1], p);
      assert ks == ks[..|ks| - 1] + [ks[|ks| - 1]];
    }
  }

  lemma KeptCounts(keys: seq<Stage>, stages: seq<Stage>, rank: nat)
    requires Distinct(keys) && forall s :: s in stages ==> s in keys
    ensures SumOccurrences(Where(keys, s => AtOrBeyond(s, rank)), stages) == CountIf(stages, s => AtOrBeyond(s, rank))
  {
    var beyond := s => AtOrBeyond(s, rank);
    var kept := Where(keys, beyond);
    WhereKeeps(keys, beyond);
    SumOfCounts(kept, stages);
    CountSame(stages, s => s in kept, beyond);
  }

  /** The stages a bucket of the funnel counts: its own and those after it in the pipeline. */
  function Bucket(step: nat): set<Stage> {
    match step
    case 0 => {New, Contacted, Qualified, SiteVisitScheduled, SiteVisitCompleted, Negotiation, Booked, ClosedWon}
    case 1 => {Contacted, Qualified, SiteVisitScheduled, SiteVisitCompleted, Negotiation, Booked, ClosedWon}
    case 2 => {Qualified, SiteVisitScheduled, SiteVisitCompleted, Negotiation, Booked, ClosedWon}
    case 3 => {SiteVisitScheduled, SiteVisitCompleted, Negotiation, Booked, ClosedWon}
    case 4 => {Negotiation, Booked, ClosedWon}
    case 5 => {ClosedWon}
    case _ => {}
  }

  function FunnelCount(stages: seq<Stage>, step: nat): nat {
    CountIf(stages, s => s in Bucket(step))
  }

  lemma BucketIsBeyond(step: nat, s: Stage)
    requires step < |FUNNEL_STEPS|
    ensures s in Bucket(step) <==> AtOrBeyond(s, Rank(FUNNEL_STEPS[step]).GetOr(0))
  {
  }

  lemma BucketCount(stages: seq<Stage>, step: nat)
    requires step < |FUNNEL_STEPS|
    ensures CountIf(stages, s => AtOrBeyond(s, Rank(FUNNEL_STEPS[step]).GetOr(0))) == FunnelCount(stages, step)
  {
    var beyond := s => AtOrBeyond(s, Rank(FUNNEL_STEPS[step]).GetOr(0));
    forall s: Stage ensures beyond(s) <==> s in Bucket(step) {
      BucketIsBeyond(step, s);
    }
    CountSame(stages, beyond, s => s in Bucket(step));
  }

  /** Whatever order the grouped counts arrive in, each bucket counts the inquiries at its stage or beyond. */
  method FunnelData(stageRows: seq<Group<Stage>>, ghost stages: seq<Stage>) returns (funnel: seq<Group<Stage>>)
    requires IsGrouping(stageRows, stages)
    ensures |funnel| == 6 && forall i :: 0 <= i < 6 ==> funnel[i].count == FunnelCount(stages, i)
    ensures forall i :: 0 <= i < 6 ==>
              funnel[i].key == [New, Contacted, Qualified, SiteVisitScheduled, Negotiation, ClosedWon][i]
  {
    var byStage, keys := ByStage(stageRows, stages);
    funnel := [];
    for i := 0 to |FUNNEL_STEPS|
      invariant |funnel| == i
      invariant forall j :: 0 <= j < i ==> funnel[j] == Group(FUNNEL_STEPS[j], FunnelCount(stages, j))
    {
      var count := CountAtOrBeyond(byStage, keys, Rank(FUNNEL_STEPS[i]).GetOr(0), stages);
      BucketCount(stages, i);
      funnel := funnel + [Group(FUNNEL_STEPS[i], count)];
    }
  }

  // ----- The lead KPIs -----

  datatype LeadKpis = LeadKpis(
    total: nat, newLeads: nat, contacted: nat, qualified: nat, siteVisits: nat, won: nat, lost: nat)

  method ComputeLeadKpis(stageRows: seq<Group<Stage>>, total: nat, siteVisits: nat, ghost stages: seq<Stage>)
    returns (kpis: LeadKpis)
    requires IsGrouping(stageRows, stages) && total == |stages|
    ensures kpis == LeadKpis(|stages|, Occurrences(stages, New), Occurrences(stages, Contacted),
                             CountIf(stages, s => s in Bucket(2)), siteVisits,
                             Occurrences(stages, ClosedWon), Occurrences(stages, ClosedLost))
  {
    var byStage, keys := ByStage(stageRows, stages);
    var qualified := 0;
    for i := 0 to |QUALIFIED_PLUS|
      invariant qualified == SumOccurrences(QUALIFIED_PLUS[..i], stages)
    {
      CountedIs(byStage, stages, QUALIFIED_PLUS[i]);
      assert QUALIFIED_PLUS[..i + 1][..i] == QUALIFIED_PLUS[..i];
      qualified := qualified + Counted(byStage, QUALIFIED_PLUS[i]);
    }
    assert QUALIFIED_PLUS[..|QUALIFIED_PLUS|] == QUALIFIED_PLUS;
    SumOfCounts(QUALIFIED_PLUS, stages);
    CountSame(stages, s => s in QUALIFIED_PLUS, s => s in Bucket(2));
    CountedIs(byStage, stages, New);
    CountedIs(byStage, stages, Contacted);
    CountedIs(byStage, stages, ClosedWon);
    CountedIs(byStage, stages, ClosedLost);
    kpis := LeadKpis(total, Counted(byStage, New), Counted(byStage, Contacted), qualified, siteVisits,
                     Counted(byStage, ClosedWon), Counted(byStage, ClosedLost));
  }

  /** The funnel never widens from one bucket to a later one. */
  lemma FunnelNeverWidens(stages: seq<Stage>, i: nat, j: nat)
    requires i <= j
    ensures FunnelCount(stages, j) <= FunnelCount(stages, i)
  {
    CountGrows(stages, s => s in Bucket(j), s => s in Bucket(i));
  }

  /** The qualified bucket and the qualified KPI are the same number, and so are the won ones. */
  lemma {:induction false} FunnelMatchesKpis(stages: seq<Stage>)
    ensures FunnelCount(stages, 2) == CountIf(stages, s => s in QUALIFIED_PLUS)
    ensures FunnelCount(stages, 5) == Occurrences(stages, ClosedWon)
  {
    CountSame(stages, s => s in Bucket(2), s => s in QUALIFIED_PLUS);
    OccurrencesAreCounted(stages, ClosedWon, s => s in Bucket(5));
  }

  /** First bucket, lost and unknown stages make up the total; so the first two do exactly when all are known. */
  lemma {:induction false} FunnelAccountsForAll(stages: seq<Stage>)
    ensures FunnelCount(stages, 0) + Occurrences(stages, ClosedLost) + CountIf(stages, (s: Stage) => s.Other?) == |stages|
    ensures FunnelCount(stages, 0) + Occurrences(stages, ClosedLost) == |stages|
            <==> forall s :: s in stages ==> !s.Other?
    decreases |stages|
  {
    CountIsZero(stages, (s: Stage) => s.Other?);
    if |stages| > 0 { FunnelAccountsForAll(stages[..|stages| - 1]); }
  }

  // ----- The employee table -----

  datatype EmployeePerfRow = EmployeePerfRow(
    employeeId: EmployeeId, total: nat, won: nat, lost: nat, siteVisits: nat)
  {
    function Get(f: Field): nat {
      match f
      case Total => total
      case Won => won
      case Lost => lost
      case SiteVisits => siteVisits
    }

    function Set(f: Field, n: nat): (r: EmployeePerfRow)
      ensures r.employeeId == employeeId && r.Get(f) == n
      ensures forall g :: g != f ==> r.Get(g) == Get(g)
    {
      match f
      case Total => this.(total := n)
      case Won => this.(won := n)
      case Lost => this.(lost := n)
      case SiteVisits => this.(siteVisits := n)
    }
  }

  datatype Field = Total | Won | Lost | SiteVisits

  type Key = Option<EmployeeId>

  /** What each field of a row counts. */
  datatype Source = Source(totals: seq<Key>, won: seq<Key>, lost: seq<Key>, visits: seq<Key>) {
    function Keys(f: Field): seq<Key> {
      match f
      case Total => totals
      case Won => won
      case Lost => lost
      case SiteVisits => visits
    }
  }

  /** A Map of rows by employee id, and its ids in insertion order. */
  datatype Rows = Rows(byId: map<EmployeeId, EmployeePerfRow>, order: seq<EmployeeId>) {
    ghost predicate Valid() {
      && Distinct(order)
      && (forall id :: id in order <==> id in byId)
      && forall id :: id in byId ==> byId[id].employeeId == id
    }

    function Ensure(id: EmployeeId): Rows {
      if id in byId then this
      else Rows(byId[id := EmployeePerfRow(id, 0, 0, 0, 0)], order + [id])
    }

    /** One step of a merging loop: the count of a group goes into one field of its row. */
    function MergeOne(f: Field, g: Group<Key>): Rows {
      match g.key
      case None => this
      case Some(id) =>
        var rows := Ensure(id);
        Rows(rows.byId[id := rows.byId[id].Set(f, g.count)], rows.order)
    }

    function Merge(f: Field, groups: seq<Group<Key>>): Rows
      decreases |groups|
    {
      if |groups| == 0 then this
      else Merge(f, groups[..|groups| - 1]).MergeOne(f, groups[|groups| - 1])
    }

    /** The field of an employee's row; no row is a row of zeros. */
    function Value(id: EmployeeId, f: Field): nat {
      if id in byId then byId[id].Get(f) else 0
    }
  }

  lemma MergeOneKeeps(rows: Rows, f: Field, g: Group<Key>)
    requires rows.Valid()
    ensures rows.MergeOne(f, g).Valid()
    ensures forall id :: id in rows.MergeOne(f, g).byId <==> id in rows.byId || g.key == Some(id)
    ensures forall id, h :: rows.MergeOne(f, g).Value(id, h)
                            == if h == f && g.key == Some(id) then g.count else rows.Value(id, h)
  {
  }

  lemma {:induction false} MergeKeeps(rows: Rows, f: Field, groups: seq<Group<Key>>)
    requires rows.Valid()
    ensures rows.Merge(f, groups).Valid()
    ensures forall id :: id in rows.Merge(f, groups).byId
                         <==> id in rows.byId || exists i :: 0 <= i < |groups| && groups[i].key == Some(id)
    decreases |groups|
  {
    if |groups| > 0 {
      MergeKeeps(rows, f, groups[..|groups| - 1]);
      MergeOneKeeps(rows.Merge(f, groups[..|groups| - 1]), f, groups[|groups| - 1]);
    }
  }

  lemma {:induction false} MergeOtherField(rows: Rows, f: Field, groups: seq<Group<Key>>, id: EmployeeId, h: Field)
    requires rows.Valid()
    requires h != f || forall i :: 0 <= i < |groups| ==> groups[i].key != Some(id)
    ensures rows.Merge(f, groups).Value(id, h) == rows.Value(id, h)
    decreases |groups|
  {
    if |groups| > 0 {
      MergeOtherField(rows, f, groups[..|groups| - 1], id, h);
      MergeKeeps(rows, f, groups[..|groups| - 1]);
      MergeOneKeeps(rows.Merge(f, groups[..|groups| - 1]), f, groups[|groups| - 1]);
    }
  }

  lemma {:induction false} MergeField(rows: Rows, f: Field, groups: seq<Group<Key>>, id: EmployeeId, i: nat)
    requires rows.Valid() && i < |groups| && groups[i].key == Some(id)
    requires forall j, k :: 0 <= j < k < |groups| ==> groups[j].key != groups[k].key
    ensures rows.Merge(f, groups).Value(id, f) == groups[i].count
    decreases |groups|
  {
    var front := groups[..|groups| - 1];
    if i < |front| {
      MergeField(rows, f, front, id, i);
    }
    MergeKeeps(rows, f, front);
    MergeOneKeeps(rows.Merge(f, front), f, groups[|front|]);
  }

  /** After the merge the field counts the employee's keys, whatever order the groups came in. */
  lemma MergedField(rows: Rows, f: Field, groups: seq<Group<Key>>, keys: seq<Key>, id: EmployeeId)
    requires rows.Valid() && IsGrouping(groups, keys) && rows.Value(id, f) == 0
    ensures rows.Merge(f, groups).Value(id, f) == Occurrences(keys, Some(id))
  {
    AbsentIsZero(keys, Some(id));
    if i :| 0 <= i < |groups| && groups[i].key == Some(id) {
      MergeField(rows, f, groups, id, i);
    } else {
      MergeOtherField(rows, f, groups, id, f);
    }
  }

  method MergeCounts(rows0: Rows, f: Field, groups: seq<Group<Key>>) returns (rows: Rows)
    ensures rows == rows0.Merge(f, groups)
  {
    rows := rows0;
    for k := 0 to |groups|
      invariant rows == rows0.Merge(f, groups[..k])
    {
      rows := rows.MergeOne(f, groups[k]);
      assert groups[..k + 1][..k] == groups[..k];
    }
    assert groups[..|groups|] == groups;
  }

  function RowOf(src: Source, id: EmployeeId): EmployeePerfRow {
    EmployeePerfRow(id, Occurrences(src.totals, Some(id)), Occurrences(src.won, Some(id)),
                    Occurrences(src.lost, Some(id)), Occurrences(src.visits, Some(id)))
  }

  predicate Seen(src: Source, id: EmployeeId) {
    Some(id) in src.totals || Some(id) in src.won || Some(id) in src.lost || Some(id) in src.visits
  }

  /** Exactly one row for each employee seen, with that employee's counts. */
  ghost predicate IsTable(rows: seq<EmployeePerfRow>, src: Source) {
    && (forall i, j :: 0 <= i < j < |rows| ==> rows[i].employeeId != rows[j].employeeId)
    && (forall i :: 0 <= i < |rows| ==> Seen(src, rows[i].employeeId) && rows[i] == RowOf(src, rows[i].employeeId))
    && forall id :: Seen(src, id) ==> exists i :: 0 <= i < |rows| && rows[i].employeeId == id
  }

  method EmployeePerformance(
    totals: seq<Group<Key>>, won: seq<Group<Key>>, lost: seq<Group<Key>>, visits: seq<Group<Key>>, ghost src: Source)
    returns (table: seq<EmployeePerfRow>)
    requires IsGrouping(totals, src.totals) && IsGrouping(won, src.won)
    requires IsGrouping(lost, src.lost) && IsGrouping(visits, src.visits)
    ensures IsTable(table, src)
  {
    var none := Rows(map[], []);
    var withTotals := MergeCounts(none, Total, totals);
    var withWon := MergeCounts(withTotals, Won, won);
    var withLost := MergeCounts(withWon, Lost, lost);
    var rows := MergeCounts(withLost, SiteVisits, visits);
    MergedRows(totals, won, lost, visits, src);
    table := TableOf(rows);
    TableIsComplete(rows, src);
  }

  /** `[...rows.values()]`. */
  function TableOf(rows: Rows): seq<EmployeePerfRow>
    requires forall id :: id in rows.order ==> id in rows.byId
  {
    seq(|rows.order|, i requires 0 <= i < |rows.order| => rows.byId[rows.order[i]])
  }

  lemma TableIsComplete(rows: Rows, src: Source)
    requires rows.Valid()
    requires forall id :: id in rows.byId <==> Seen(src, id)
    requires forall id :: id in rows.byId ==> rows.byId[id] == RowOf(src, id)
    ensures IsTable(TableOf(rows), src)
  {
    forall id | Seen(src, id) ensures exists i :: 0 <= i < |TableOf(rows)| && TableOf(rows)[i].employeeId == id {
      var i :| 0 <= i < |rows.order| && rows.order[i] == id;
      assert TableOf(rows)[i].employeeId == id;
    }
  }

  function MergeAll(
    totals: seq<Group<Key>>, won: seq<Group<Key>>, lost: seq<Group<Key>>, visits: seq<Group<Key>>): Rows
  {
    Rows(map[], []).Merge(Total, totals).Merge(Won, won).Merge(Lost, lost).Merge(SiteVisits, visits)
  }

  lemma MergedRows(
    totals: seq<Group<Key>>, won: seq<Group<Key>>, lost: seq<Group<Key>>, visits: seq<Group<Key>>, src: Source)
    requires IsGrouping(totals, src.totals) && IsGrouping(won, src.won)
    requires IsGrouping(lost, src.lost) && IsGrouping(visits, src.visits)
    ensures var rows := MergeAll(totals, won, lost, visits);
            && rows.Valid()
            && (forall id :: id in rows.byId <==> Seen(src, id))
            && forall id :: id in rows.byId ==> rows.byId[id] == RowOf(src, id)
  {
    MergedIds(totals, won, lost, visits, src);
    var rows := MergeAll(totals, won, lost, visits);
    forall id | id in rows.byId ensures rows.byId[id] == RowOf(src, id) {
      MergedValues(Rows(map[], []), totals, won, lost, visits, src, id);
    }
  }

  lemma MergedIds(
    totals: seq<Group<Key>>, won: seq<Group<Key>>, lost: seq<Group<Key>>, visits: seq<Group<Key>>, src: Source)
    requires IsGrouping(totals, src.totals) && IsGrouping(won, src.won)
    requires IsGrouping(lost, src.lost) && IsGrouping(visits, src.visits)
    ensures MergeAll(totals, won, lost, visits).Valid()
    ensures forall id :: id in MergeAll(totals, won, lost, visits).byId <==> Seen(src, id)
  {
    var r0 := Rows(map[], []);
    var r1 := r0.Merge(Total, totals);
    var r2 := r1.Merge(Won, won);
    var r3 := r2.Merge(Lost, lost);
    MergeIds(r0, Total, totals, src.totals);
    MergeIds(r1, Won, won, src.won);
    MergeIds(r2, Lost, lost, src.lost);
    MergeIds(r3, SiteVisits, visits, src.visits);
  }

  lemma MergeIds(rows: Rows, f: Field, groups: seq<Group<Key>>, keys: seq<Key>)
    requires rows.Valid() && IsGrouping(groups, keys)
    ensures rows.Merge(f, groups).Valid()
    ensures forall id :: id in rows.Merge(f, groups).byId <==> id in rows.byId || Some(id) in keys
  {
    MergeKeeps(rows, f, groups);
    KeysOfGroups(groups, keys);
  }

  lemma KeysOfGroups(groups: seq<Group<Key>>, keys: seq<Key>)
    requires IsGrouping(groups, keys)
    ensures forall id: EmployeeId :: Some(id) in keys <==> exists i :: 0 <= i < |groups| && groups[i].key == Some(id)
  {
  }

  lemma MergedValues(
    r0: Rows, totals: seq<Group<Key>>, won: seq<Group<Key>>, lost: seq<Group<Key>>, visits: seq<Group<Key>>,
    src: Source, id: EmployeeId)
    requires r0 == Rows(map[], [])
    requires IsGrouping(totals, src.totals) && IsGrouping(won, src.won)
    requires IsGrouping(lost, src.lost) && IsGrouping(visits, src.visits)
    ensures var r4 := r0.Merge(Total, totals).Merge(Won, won).Merge(Lost, lost).Merge(SiteVisits, visits);
            && r4.Value(id, Total) == Occurrences(src.totals, Some(id))
            && r4.Value(id, Won) == Occurrences(src.won, Some(id))
            && r4.Value(id, Lost) == Occurrences(src.lost, Some(id))
            && r4.Value(id, SiteVisits) == Occurrences(src.visits, Some(id))
  {
    var r1 := r0.Merge(Total, totals);
    var r2 := r1.Merge(Won, won);
    var r3 := r2.Merge(Lost, lost);
    MergeStep(r0, Total, totals, src, id);
    MergeStep(r1, Won, won, src, id);
    MergeStep(r2, Lost, lost, src, id);
    MergeStep(r3, SiteVisits, visits, src, id);
  }

  lemma MergeStep(rows: Rows, f: Field, groups: seq<Group<Key>>, src: Source, id: EmployeeId)
    requires rows.Valid() && IsGrouping(groups, src.Keys(f)) && rows.Value(id, f) == 0
    ensures rows.Merge(f, groups).Valid()
    ensures rows.Merge(f, groups).Value(id, f) == Occurrences(src.Keys(f), Some(id))
    ensures forall h :: h != f ==> rows.Merge(f, groups).Value(id, h) == rows.Value(id, h)
  {
    MergeKeeps(rows, f, groups);
    MergedField(rows, f, groups, src.Keys(f), id);
    forall h | h != f ensures rows.Merge(f, groups).Value(id, h) == rows.Value(id, h) {
      MergeOtherField(rows, f, groups, id, h);
    }
  }

  // ----- The table against the list -----

  function SumField(rows: seq<EmployeePerfRow>, f: Field): nat {
    if |rows| == 0 then 0 else SumField(rows[..|rows| - 1], f) + rows[|rows| - 1].Get(f)
  }

  function RowKeys(rows: seq<EmployeePerfRow>): seq<Key> {
    seq(|rows|, i requires 0 <= i < |rows| => Some(rows[i].employeeId))
  }

  lemma {:induction false} SumFieldIsCount(rows: seq<EmployeePerfRow>, f: Field, keys: seq<Key>)
    requires forall i :: 0 <= i < |rows| ==> rows[i].Get(f) == Occurrences(keys, Some(rows[i].employeeId))
    ensures SumField(rows, f) == SumOccurrences(RowKeys(rows), keys)
    decreases |rows|
  {
    if |rows| > 0 {
      SumFieldIsCount(rows[..|rows| - 1], f, keys);
      assert RowKeys(rows)[..|rows| - 1] == RowKeys(rows[..|rows| - 1]);
    }
  }

  /** Each column adds up to what its query counted for some employee. */
  lemma ColumnSum(rows: seq<EmployeePerfRow>, src: Source, f: Field)
    requires IsTable(rows, src)
    ensures SumField(rows, f) == CountIf(src.Keys(f), (k: Key) => k.Some?)
  {
    var keys, ids := src.Keys(f), RowKeys(rows);
    SumFieldIsCount(rows, f, keys);
    SumOfCounts(ids, keys);
    forall k | k in keys ensures k in ids <==> k.Some? {
      if k.Some? {
        assert Seen(src, k.value);
        var i :| 0 <= i < |rows| && rows[i].employeeId == k.value;
        assert ids[i] == k;
      }
    }
    CountSame(keys, k => k in ids, (k: Key) => k.Some?);
  }

  function KeysOf(qs: seq<Inquiry>): seq<Key> {
    seq(|qs|, i requires 0 <= i < |qs| => qs[i].employeeId)
  }

  function VisitKeys(vs: seq<SiteVisit>): seq<Key> {
    seq(|vs|, i requires 0 <= i < |vs| => vs[i].employeeId)
  }

  function Assigned(table: seq<Inquiry>, tenantId: string, scope: Scope, range: DateRange): seq<Inquiry> {
    Where(table, q => AssignedWhere(q, tenantId, scope, range))
  }

  /** The four queries behind the employee table. */
  function SourceOf(table: seq<Inquiry>, visits: seq<SiteVisit>, tenantId: string, scope: Scope, range: DateRange): Source {
    var qs := Assigned(table, tenantId, scope, range);
    Source(KeysOf(qs), KeysOf(Where(qs, (q: Inquiry) => q.stage == ClosedWon)),
           KeysOf(Where(qs, (q: Inquiry) => q.stage == ClosedLost)), VisitKeys(Visits(visits, tenantId, scope, range)))
  }

  lemma {:induction false} KeyOccurrences(qs: seq<Inquiry>, k: Key)
    ensures Occurrences(KeysOf(qs), k) == CountIf(qs, (q: Inquiry) => q.employeeId == k)
    decreases |qs|
  {
    if |qs| > 0 {
      KeyOccurrences(qs[..|qs| - 1], k);
      assert KeysOf(qs)[..|qs| - 1] == KeysOf(qs[..|qs| - 1]);
    }
  }

  lemma {:induction false} CountWhere<T(!new)>(xs: seq<T>, p: T -> bool, q: T -> bool, both: T -> bool)
    requires forall x :: both(x) <==> p(x) && q(x)
    ensures CountIf(Where(xs, p), q) == CountIf(xs, both)
    decreases |xs|
  {
    if |xs| > 0 {
      CountWhere(xs[..|xs| - 1], p, q, both);
      CountSnoc(Where(xs[..|xs| - 1], p), xs[|xs| - 1], q);
    }
  }

  /** Counting an employee's inquiries among the assigned ones is counting them among all the query sees. */
  lemma AssignedCount(
    table: seq<Inquiry>, tenantId: string, scope: Scope, range: DateRange, id: EmployeeId, mine: Inquiry -> bool)
    requires forall q :: mine(q) ==> q.employeeId == Some(id)
    ensures CountIf(Assigned(table, tenantId, scope, range), mine) == CountIf(Inquiries(table, tenantId, scope, range), mine)
  {
    var both := q => InquiryWhere(q, tenantId, scope, range) && mine(q);
    CountWhere(table, q => AssignedWhere(q, tenantId, scope, range), mine, both);
    CountWhere(table, q => InquiryWhere(q, tenantId, scope, range), mine, both);
  }

  lemma StageCount(
    table: seq<Inquiry>, tenantId: string, scope: Scope, range: DateRange, id: EmployeeId, stage: Stage)
    ensures Occurrences(KeysOf(Where(Assigned(table, tenantId, scope, range), (q: Inquiry) => q.stage == stage)), Some(id))
            == CountIf(Inquiries(table, tenantId, scope, range), (q: Inquiry) => q.employeeId == Some(id) && q.stage == stage)
  {
    var qs := Assigned(table, tenantId, scope, range);
    var at := (q: Inquiry) => q.stage == stage;
    var mine := (q: Inquiry) => q.employeeId == Some(id) && q.stage == stage;
    KeyOccurrences(Where(qs, at), Some(id));
    CountWhere(qs, at, (q: Inquiry) => q.employeeId == Some(id), mine);
    AssignedCount(table, tenantId, scope, range, id, mine);
  }

  lemma {:induction false} VisitOccurrences(vs: seq<SiteVisit>, k: Key)
    ensures Occurrences(VisitKeys(vs), k) == CountIf(vs, (v: SiteVisit) => v.employeeId == k)
    decreases |vs|
  {
    if |vs| > 0 {
      VisitOccurrences(vs[..|vs| - 1], k);
      assert VisitKeys(vs)[..|vs| - 1] == VisitKeys(vs[..|vs| - 1]);
    }
  }

  /** What a row of the table says of an employee: inquiries seen, those won, those lost, and visits. */
  lemma RowCountsExactly(
    table: seq<Inquiry>, visits: seq<SiteVisit>, tenantId: string, scope: Scope, range: DateRange, id: EmployeeId)
    ensures var row := RowOf(SourceOf(table, visits, tenantId, scope, range), id);
            var qs := Inquiries(table, tenantId, scope, range);
            && row.total == CountIf(qs, (q: Inquiry) => q.employeeId == Some(id))
            && row.won == CountIf(qs, (q: Inquiry) => q.employeeId == Some(id) && q.stage == ClosedWon)
            && row.lost == CountIf(qs, (q: Inquiry) => q.employeeId == Some(id) && q.stage == ClosedLost)
            && row.siteVisits
               == CountIf(Visits(visits, tenantId, scope, range), (v: SiteVisit) => v.employeeId == Some(id))
  {
    KeyOccurrences(Assigned(table, tenantId, scope, range), Some(id));
    AssignedCount(table, tenantId, scope, range, id, (q: Inquiry) => q.employeeId == Some(id));
    StageCount(table, tenantId, scope, range, id, ClosedWon);
    StageCount(table, tenantId, scope, range, id, ClosedLost);
    VisitOccurrences(Visits(visits, tenantId, scope, range), Some(id));
  }

  /** An employee cannot have won and lost more inquiries than were assigned. */
  lemma WonAndLostWithinTotal(
    table: seq<Inquiry>, visits: seq<SiteVisit>, tenantId: string, scope: Scope, range: DateRange, id: EmployeeId)
    ensures var row := RowOf(SourceOf(table, visits, tenantId, scope, range), id);
            row.won + row.lost <= row.total
  {
    var qs := Assigned(table, tenantId, scope, range);
    var mine := (q: Inquiry) => q.employeeId == Some(id);
    var isWon, isLost := (q: Inquiry) => q.stage == ClosedWon, (q: Inquiry) => q.stage == ClosedLost;
    KeyOccurrences(qs, Some(id));
    KeyOccurrences(Where(qs, isWon), Some(id));
    KeyOccurrences(Where(qs, isLost), Some(id));
    DisjointParts(qs, mine, isWon, isLost);
  }

  lemma DisjointParts(qs: seq<Inquiry>, p: Inquiry -> bool, a: Inquiry -> bool, b: Inquiry -> bool)
    requires forall q :: !(a(q) && b(q))
    ensures CountIf(Where(qs, a), p) + CountIf(Where(qs, b), p) <= CountIf(qs, p)
  {
  }

  /** The leads of the table and the unassigned inquiries make up the total of the lead KPIs. */
  lemma TableMatchesKpis(
    rows: seq<EmployeePerfRow>, table: seq<Inquiry>, visits: seq<SiteVisit>, tenantId: string, scope: Scope,
    range: DateRange)
    requires IsTable(rows, SourceOf(table, visits, tenantId, scope, range))
    ensures var unassigned := CountIf(Inquiries(table, tenantId, scope, range), (q: Inquiry) => q.employeeId.None?);
            && SumField(rows, Total) + unassigned == |Inquiries(table, tenantId, scope, range)|
            && (scope.Employees? ==> unassigned == 0)
    ensures SumField(rows, SiteVisits)
            == CountIf(Visits(visits, tenantId, scope, range), (v: SiteVisit) => v.employeeId.Some?)
  {
    var src := SourceOf(table, visits, tenantId, scope, range);
    ColumnSum(rows, src, Total);
    ColumnSum(rows, src, SiteVisits);
    CountKeys(Assigned(table, tenantId, scope, range));
    CountVisitKeys(Visits(visits, tenantId, scope, range));
    AssignedPart(table, tenantId, scope, range);
  }

  lemma {:induction false} CountKeys(qs: seq<Inquiry>)
    ensures CountIf(KeysOf(qs), (k: Key) => k.Some?) == CountIf(qs, (q: Inquiry) => q.employeeId.Some?)
    decreases |qs|
  {
    if |qs| > 0 {
      CountKeys(qs[..|qs| - 1]);
      assert KeysOf(qs)[..|qs| - 1] == KeysOf(qs[..|qs| - 1]);
    }
  }

  lemma {:induction false} CountVisitKeys(vs: seq<SiteVisit>)
    ensures CountIf(VisitKeys(vs), (k: Key) => k.Some?) == CountIf(vs, (v: SiteVisit) => v.employeeId.Some?)
    decreases |vs|
  {
    if |vs| > 0 {
      CountVisitKeys(vs[..|vs| - 1]);
      assert VisitKeys(vs)[..|vs| - 1] == VisitKeys(vs[..|vs| - 1]);
    }
  }

  lemma {:induction false} AssignedPart(table: seq<Inquiry>, tenantId: string, scope: Scope, range: DateRange)
    ensures CountIf(Assigned(table, tenantId, scope, range), (q: Inquiry) => q.employeeId.Some?)
            + CountIf(Inquiries(table, tenantId, scope, range), (q: Inquiry) => q.employeeId.None?)
            == |Inquiries(table, tenantId, scope, range)|
    ensures scope.Employees?
            ==> CountIf(Inquiries(table, tenantId, scope, range), (q: Inquiry) => q.employeeId.None?) == 0
    decreases |table|
  {
    if |table| > 0 {
      var front, q := table[..|table| - 1], table[|table| - 1];
      AssignedPart(front, tenantId, scope, range);
      CountSnoc(Assigned(front, tenantId, scope, range), q, (q: Inquiry) => q.employeeId.Some?);
      CountSnoc(Inquiries(front, tenantId, scope, range), q, (q: Inquiry) => q.employeeId.None?);
    }
  }

  lemma CountSnoc<T>(xs: seq<T>, x: T, p: T -> bool)
    ensures CountIf(xs + [x], p) == CountIf(xs, p) + if p(x) then 1 else 0
  {
  }

  // ----- Whose rows count -----

  /** Exactly which rows a query sees: the tenant's, not deleted, in the range with its ends, in the scope. */
  lemma InquiriesSeen(table: seq<Inquiry>, tenantId: string, scope: Scope, range: DateRange, q: Inquiry)
    ensures q in Inquiries(table, tenantId, scope, range) <==>
              && q in table && q.tenantId == tenantId && !q.deleted
              && (range.from.Some? ==> range.from.value <= q.createdAt)
              && (range.to.Some? ==> q.createdAt <= range.to.value)
              && (scope.Employees? && scope.ids != [] ==> q.employeeId.Some? && q.employeeId.value in scope.ids)
              && (scope == Employees([]) ==> q.employeeId == Some("00000000-0000-0000-0000-000000000000"))
  {
    WhereKeeps(table, q => InquiryWhere(q, tenantId, scope, range));
  }

  lemma VisitsSeen(table: seq<SiteVisit>, tenantId: string, scope: Scope, range: DateRange, v: SiteVisit)
    ensures v in Visits(table, tenantId, scope, range) <==>
              && v in table && v.tenantId == tenantId
              && (range.from.Some? ==> range.from.value <= v.scheduledAt)
              && (range.to.Some? ==> v.scheduledAt <= range.to.value)
              && (scope.Employees? && scope.ids != [] ==> v.employeeId.Some? && v.employeeId.value in scope.ids)
              && (scope == Employees([]) ==> v.employeeId == Some("00000000-0000-0000-0000-000000000000"))
  {
    WhereKeeps(table, v => SiteVisitWhere(v, tenantId, scope, range));
  }

  lemma {:induction false} WhereOfWhere<T(!new)>(xs: seq<T>, p: T -> bool, q: T -> bool)
    requires forall x :: p(x) ==> q(x)
    ensures Where(Where(xs, q), p) == Where(xs, p)
    decreases |xs|
  {
    if |xs| > 0 {
      var front, x := xs[..|xs| - 1], xs[|xs| - 1];
      WhereOfWhere(front, p, q);
      if q(x) {
        assert (Where(front, q) + [x])[..|Where(front, q)|] == Where(front, q);
      }
    }
  }

  /** The tenant's rows that are not deleted. */
  function Own(table: seq<Inquiry>, tenantId: string): seq<Inquiry> {
    Where(table, (q: Inquiry) => q.tenantId == tenantId && !q.deleted)
  }

  function OwnVisits(table: seq<SiteVisit>, tenantId: string): seq<SiteVisit> {
    Where(table, (v: SiteVisit) => v.tenantId == tenantId)
  }

  /**
   * Every aggregate of a tenant is computed from its own rows that are not deleted: two databases that agree on
   * those give the same inquiries, visits and employee table.
   */
  lemma OnlyOwnRowsCount(
    table: seq<Inquiry>, table': seq<Inquiry>, visits: seq<SiteVisit>, visits': seq<SiteVisit>,
    tenantId: string, scope: Scope, range: DateRange)
    requires Own(table, tenantId) == Own(table', tenantId) && OwnVisits(visits, tenantId) == OwnVisits(visits', tenantId)
    ensures Inquiries(table, tenantId, scope, range) == Inquiries(table', tenantId, scope, range)
    ensures Visits(visits, tenantId, scope, range) == Visits(visits', tenantId, scope, range)
    ensures SourceOf(table, visits, tenantId, scope, range) == SourceOf(table', visits', tenantId, scope, range)
  {
    var own := (q: Inquiry) => q.tenantId == tenantId && !q.deleted;
    var ownVisit := (v: SiteVisit) => v.tenantId == tenantId;
    var seen := q => InquiryWhere(q, tenantId, scope, range);
    var handled := q => AssignedWhere(q, tenantId, scope, range);
    var visited := v => SiteVisitWhere(v, tenantId, scope, range);
    WhereOfWhere(table, seen, own);
    WhereOfWhere(table', seen, own);
    WhereOfWhere(table, handled, own);
    WhereOfWhere(table', handled, own);
    WhereOfWhere(visits, visited, ownVisit);
    WhereOfWhere(visits', visited, ownVisit);
  }
}
