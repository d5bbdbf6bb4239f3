/** The calls on a builder as values, and the two ways an AccountQuery reaches the database: All hands
    over a spec, IDs builds a selector of its own. */
module QueryPaths {
  import opened Relational
  import opened EagerLoading
  import opened BatchingCorrect

  /** One call on a builder; the options of WithParent and WithChildren are calls on a new one. */
  datatype Op =
    | WhereOp(p: AccountRow -> bool)
    | OrderOp(term: OrderTerm<AccountRow>)
    | LimitOp(limit: nat)
    | OffsetOp(offset: nat)
    | UniqueOp(unique: bool)
    | SelectOp(fields: seq<RowColumn>)
    | ForUpdateOp(postgres: bool)
    | ForShareOp(postgres: bool)
    | WithGroupsOp(groups: LeafQuery<GroupRow>)
    | WithProxyOp(proxy: LeafQuery<ProxyRow>)
    | WithUsageLogsOp(usageLogs: LeafQuery<UsageRow>)
    | WithParentOp(opts: seq<Op>)
    | WithChildrenOp(opts: seq<Op>)

  /** What a call does to what the builder asks for.  Locks ask for no other rows, but on Postgres a lock
      excludes DISTINCT. */
  function Step(q: Plan, op: Op): Plan
    decreases op
  {
    match op
    case WhereOp(p) => Where(q, p)
    case OrderOp(t) => q.(order := q.order + [t])
    case LimitOp(n) => q.(limit := Some(n))
    case OffsetOp(n) => q.(offset := Some(n))
    case UniqueOp(b) => q.(unique := Some(b))
    case SelectOp(fs) => q.(fields := q.fields + fs)
    case ForUpdateOp(postgres) => if postgres then q.(unique := Some(false)) else q
    case ForShareOp(postgres) => if postgres then q.(unique := Some(false)) else q
    case WithGroupsOp(g) => q.(withGroups := Some(GroupsQuery(g, [])))
    case WithProxyOp(x) => q.(withProxy := Some(x))
    case WithUsageLogsOp(u) => q.(withUsageLogs := Some(u))
    case WithParentOp(opts) => q.(withParent := Some(Steps(EmptyPlan, opts)))
    case WithChildrenOp(opts) => q.(withChildren := Some(Steps(EmptyPlan, opts)))
  }

  function Steps(q: Plan, ops: seq<Op>): Plan
    decreases ops
  {
    if ops == [] then q else Step(Steps(q, ops[..|ops| - 1]), ops[|ops| - 1])
  }

  // ----- the selector path -----

  const MAX_INT32: nat := 2147483647

  /** The query that sqlQuery writes: no columns means all of them, no limit that there is none. */
  datatype Selector = Selector(
    from: Option<seq<AccountRow>>, columns: Option<seq<RowColumn>>, distinct: bool,
    preds: seq<AccountRow -> bool>, order: seq<OrderTerm<AccountRow>>, offset: nat, limit: Option<nat>)

  /** A selector needs a limit to skip rows; an explicit limit, 0 included, is taken as it is. */
  function SelectorLimit(q: Plan): Option<nat> {
    if q.limit.Some? then q.limit else if q.offset.Some? then Some(MAX_INT32) else None
  }

  function SelectorOf(q: Plan): Selector {
    Selector(q.source, if q.fields == [] then None else Some(q.fields), q.unique == Some(true),
             q.preds, q.order, SpecOffset(q.offset), SelectorLimit(q))
  }

  /** The rows of a selector, before projection. */
  function SelectorRows(db: Database, s: Selector): seq<AccountRow> {
    var kept := Filter(All(s.preds), if s.from.Some? then s.from.value else db.accounts);
    var once := if s.distinct then Distinct(Project(s.columns), kept) else kept;
    Page(s.limit, s.offset, Sort(s.order, once))
  }

  /** The builder once IDs has prepared it. */
  function ForIds(q: Plan): Plan {
    q.(unique := if q.unique.None? && q.source.Some? then Some(true) else q.unique, fields := q.fields + [IdCol])
  }

  /** What IDs returns on a builder without selected columns. */
  function IdsOf(db: Database, q: Plan): seq<int> { Map(IdOf(), SelectorRows(db, SelectorOf(ForIds(q)))) }

  /** All the rows q stands for: its limit and offset aside. */
  function AllRows(db: Database, q: Plan): seq<AccountRow> {
    Selected(db, q.(limit := None, offset := None))
  }

  /** An id stands for one row. */
  ghost predicate IdDetermines(rows: seq<AccountRow>) {
    forall a, b | a in rows && b in rows && a.id == b.id :: a == b
  }

  /** De-duplicating by two keys that tell the same rows apart is the same. */
  lemma {:induction false} DistinctAgree<R, K, L>(f: R -> K, g: R -> L, s: seq<R>)
    requires forall a, b | a in s && b in s :: f(a) == f(b) <==> g(a) == g(b)
    ensures Distinct(f, s) == Distinct(g, s)
  {
    if s != [] {
      var init, last := s[..|s| - 1], s[|s| - 1];
      assert last in s && forall x | x in init :: x in s;
      DistinctAgree(f, g, init);
      DistinctCorrect(f, init);
      var d := Distinct(f, init);
      assert forall i | 0 <= i < |d| :: d[i] in init;
      assert HasKey(f, d, f(last)) == HasKey(g, d, g(last));
    }
  }

  lemma {:induction false} FilterIdDetermines(p: AccountRow -> bool, rows: seq<AccountRow>)
    requires IdDetermines(rows)
    ensures IdDetermines(Filter(p, rows))
  {
    forall a, b | a in Filter(p, rows) && b in Filter(p, rows) && a.id == b.id ensures a == b {
      FilterIn(p, rows, a);
      FilterIn(p, rows, b);
    }
  }

  /** Before paging, both paths stand for the same rows. */
  lemma SameRows(db: Database, q: Plan)
    requires q.fields == [] && IdDetermines(Source(db, q))
    ensures RowsOf(db, q) == Page(SpecLimit(q.limit), SpecOffset(q.offset), AllRows(db, q))
    ensures SelectorRows(db, SelectorOf(ForIds(q))) == Page(SelectorLimit(q), SpecOffset(q.offset), AllRows(db, q))
  {
    var kept := Filter(All(q.preds), Source(db, q));
    FilterIdDetermines(All(q.preds), Source(db, q));
    DistinctAgree(Project(None), Project(Some([IdCol])), kept);
    assert ForIds(q).fields == [IdCol];
    assert Map(Project(None), Selected(db, q)) == Selected(db, q);
  }

  lemma PagesAgree(l: Option<nat>, m: Option<nat>, o: nat, s: seq<AccountRow>)
    ensures Map(IdOf(), Page(l, o, s)) == Map(IdOf(), Page(m, o, s)) <==> |Page(l, o, s)| == |Page(m, o, s)|
  {
    if |Page(l, o, s)| == |Page(m, o, s)| {
      assert Page(l, o, s) == Page(m, o, s);
    }
  }

  /** Exactly when the paging of the two paths cuts the same rows, n of them being there: Limit(0) is no limit
      to All but an empty result to IDs, and IDs caps an offset without a limit. */
  predicate PathsCut(q: Plan, n: nat) {
    && (q.limit == Some(0) ==> n <= SpecOffset(q.offset))
    && (q.limit.None? && q.offset.Some? ==> n <= q.offset.value + 2147483647)
  }

  /** IDs returns the ids of what All returns, except in the two cases PathsCut names. */
  lemma {:induction false} IdsAreIdsOfAll(db: Database, q: Plan)
    requires q.fields == [] && IdDetermines(Source(db, q))
    ensures IdsOf(db, q) == Map((t: Tree) => t.row.id, Batched(db, q)) <==> PathsCut(q, |AllRows(db, q)|)
  {
    SameRows(db, q);
    TreeRows(db, q);
    PagesAgree(SpecLimit(q.limit), SelectorLimit(q), SpecOffset(q.offset), AllRows(db, q));
  }

  lemma {:induction false} TreeRows(db: Database, q: Plan)
    ensures |Batched(db, q)| == |RowsOf(db, q)|
    ensures forall i | 0 <= i < |RowsOf(db, q)| :: Batched(db, q)[i].row == RowsOf(db, q)[i]
  {
  }

  /** The whole family on which Limit(0) tells the paths apart, and a member of it. */
  lemma {:induction false} LimitZeroDiffers(db: Database, q: Plan)
    requires q.fields == [] && IdDetermines(Source(db, q)) && q.limit == Some(0) && q.offset.None?
    ensures IdsOf(db, q) == [] && |Batched(db, q)| == |AllRows(db, q)|
    ensures AllRows(Database([AccountRow(1, None, None, map[])], [], [], []), EmptyPlan)
         == [AccountRow(1, None, None, map[])]
  {
    SameRows(db, q);
    TreeRows(db, q);
    FilterAll(All([]), [AccountRow(1, None, None, map[])]);
    SortUnordered([AccountRow(1, None, None, map[])]);
  }

  // ----- First, Only and Exist -----

  /** A limit of n replaces whatever limit was set, and takes the first n rows after the offset. */
  lemma LimitTakes(db: Database, q: Plan, n: nat)
    requires n > 0
    ensures RowsOf(db, q.(limit := Some(n)))
         == var rest := RowsOf(db, q.(limit := None)); if n < |rest| then rest[..n] else rest
  {
    SelectedTakes(db, q, n);
    var f, rest := Project(Columns(q)), Selected(db, q.(limit := None));
    assert forall m | 0 <= m <= |rest| :: Map(f, rest[..m]) == Map(f, rest)[..m];
  }

  lemma SelectedTakes(db: Database, q: Plan, n: nat)
    requires n > 0
    ensures Selected(db, q.(limit := Some(n)))
         == var rest := Selected(db, q.(limit := None)); if n < |rest| then rest[..n] else rest
  {
  }

  /** The test Exist makes looks past any limit of the builder. */
  lemma FirstIdAgrees(db: Database, q: Plan)
    requires q.fields == [] && IdDetermines(Source(db, q))
    ensures var rest := RowsOf(db, q.(limit := None));
            IdsOf(db, q.(limit := Some(1))) == if rest == [] then [] else [rest[0].id]
  {
    var rest := RowsOf(db, q.(limit := None));
    LimitTakes(db, q, 1);
    IdsOfOne(db, q.(limit := Some(1)));
    assert rest != [] ==> rest[..1] == [rest[0]];
  }

  /** With a limit of one, both paths cut the same rows. */
  lemma IdsOfOne(db: Database, q: Plan)
    requires q.fields == [] && q.limit == Some(1) && IdDetermines(Source(db, q))
    ensures IdsOf(db, q) == Map(IdOf(), RowsOf(db, q))
  {
    SameRows(db, q);
  }

  /** Exist and FirstID keep their limit and their selected column in the builder: running All on it
      afterwards gives at most one account, without its own data. */
  lemma {:induction false} ExistNarrowsLater(db: Database, q: Plan)
    requires q.fields == []
    ensures |Batched(db, ForIds(q.(limit := Some(1))))| <= 1
    ensures forall t | t in Batched(db, ForIds(q.(limit := Some(1)))) :: t.row.data == map[]
  {
    var used := ForIds(q.(limit := Some(1)));
    LimitTakes(db, ForIds(q), 1);
    assert used == ForIds(q).(limit := Some(1));
    assert used.fields == [IdCol];
    IdsOnly(db, used);
  }

  lemma {:induction false} IdsOnly(db: Database, q: Plan)
    requires q.fields == [IdCol]
    ensures |Batched(db, q)| == |RowsOf(db, q)| && forall t | t in Batched(db, q) :: t.row.data == map[]
  {
    TreeRows(db, q);
    NoDataColumn(q);
    NoData(Columns(q), Selected(db, q));
  }

  lemma NoData(cs: Option<seq<RowColumn>>, s: seq<AccountRow>)
    requires cs.Some? && forall k :: DataCol(k) !in cs.value
    ensures forall r | r in Map(Project(cs), s) :: r.data == map[]
  {
    forall i | 0 <= i < |s| ensures Project(cs)(s[i]).data == map[] { }
  }

  lemma NoDataColumn(q: Plan)
    requires q.fields == [IdCol]
    ensures Columns(q).Some? && forall k :: DataCol(k) !in Columns(q).value
  {
    FilterIn(NotIdCol(), q.fields, IdCol);
    assert Filter(NotIdCol(), [IdCol][..0]) == [];
  }
}
