/** What a query returns, in terms of the tables and of the calls made on the builder: which rows, in which order, with
    which columns, and which neighbours at every depth. */
module QueryMeaning {
  import opened Relational
  import opened EagerLoading
  import opened BatchingCorrect
  import opened LoadedEdges
  import opened QueryPaths

  // ----- rows, order and paging -----

  ghost predicate Holds<R(!new)>(preds: seq<R -> bool>, x: R) { forall k | 0 <= k < |preds| :: preds[k](x) }

  /** a comes no later than b: the first term that tells them apart decides, the smaller key first, or the larger one
      if the term is descending. */
  ghost predicate InOrder<R(!new)>(ts: seq<OrderTerm<R>>, a: R, b: R) {
    || (forall k | 0 <= k < |ts| :: ts[k].key(a) == ts[k].key(b))
    || exists k | 0 <= k < |ts| :: Decides(ts, k, a, b)
  }

  ghost predicate Decides<R(!new)>(ts: seq<OrderTerm<R>>, k: nat, a: R, b: R)
    requires k < |ts|
  {
    && (forall j | 0 <= j < k :: ts[j].key(a) == ts[j].key(b))
    && if ts[k].desc then ts[k].key(b) < ts[k].key(a) else ts[k].key(a) < ts[k].key(b)
  }

  lemma {:induction false} LeMeans<R(!new)>(ts: seq<OrderTerm<R>>, a: R, b: R)
    ensures Le(ts, a, b) <==> InOrder(ts, a, b)
  {
    if ts != [] {
      var rest := ts[1..];
      LeMeans(rest, a, b);
      assert forall k | 0 <= k < |rest| :: rest[k] == ts[k + 1];
      if ts[0].key(a) == ts[0].key(b) {
        forall k | 0 <= k < |rest| ensures Decides(rest, k, a, b) <==> Decides(ts, k + 1, a, b) {
          assert forall j | 0 < j < k + 1 :: ts[j] == rest[j - 1];
        }
        if k :| 0 <= k < |ts| && Decides(ts, k, a, b) { assert Decides(rest, k - 1, a, b); }
        if forall k | 0 <= k < |rest| :: rest[k].key(a) == rest[k].key(b) {
          forall k | 0 <= k < |ts| ensures ts[k].key(a) == ts[k].key(b) { if k > 0 { assert ts[k] == rest[k - 1]; } }
        }
      } else {
        assert Decides(ts, 0, a, b) || Decides(ts, 0, b, a);
        forall k | 0 < k < |ts| ensures !Decides(ts, k, a, b) {}
      }
    }
  }

  ghost predicate Ordered<R(!new)>(ts: seq<OrderTerm<R>>, s: seq<R>) {
    forall i, j | 0 <= i < j < |s| :: InOrder(ts, s[i], s[j])
  }

  /** s holds the wanted rows of the table, each as often as the table does, in order, and where no term tells two rows
      apart in the order of the table. */
  ghost predicate Picked<R(!new)>(table: seq<R>, wanted: R -> bool, ts: seq<OrderTerm<R>>, s: seq<R>) {
    && (forall x :: multiset(s)[x] == if wanted(x) then multiset(table)[x] else 0)
    && Ordered(ts, s)
    && forall i, j | 0 <= i < j < |s| && InOrder(ts, s[j], s[i]) :: ComesBefore(table, s[i], s[j])
  }

  lemma {:induction false} SortPicks<R(!new)>(table: seq<R>, p: R -> bool, wanted: R -> bool, ts: seq<OrderTerm<R>>)
    requires forall x :: p(x) == wanted(x)
    ensures Picked(table, wanted, ts, Sort(ts, Filter(p, table)))
  {
    var kept := Filter(p, table);
    var s := Sort(ts, kept);
    SortCorrect(ts, kept);
    SortStable(ts, kept);
    forall x ensures multiset(s)[x] == if wanted(x) then multiset(table)[x] else 0 { FilterCount(p, table, x); }
    forall i, j | 0 <= i < j < |s| ensures InOrder(ts, s[i], s[j]) { LeMeans(ts, s[i], s[j]); }
    forall i, j | 0 <= i < j < |s| && InOrder(ts, s[j], s[i]) ensures ComesBefore(table, s[i], s[j]) {
      LeMeans(ts, s[j], s[i]);
      FilterBefore(p, table, s[i], s[j]);
    }
  }

  /** rows are the rows of s after the offset, at most limit of them; a limit of 0 is none. */
  ghost predicate Cut<R(!new)>(limit: Option<nat>, offset: Option<nat>, s: seq<R>, rows: seq<R>) {
    var o := if offset.Some? then offset.value else 0;
    var left := if o < |s| then |s| - o else 0;
    && |rows| == (if limit.Some? && 0 < limit.value < left then limit.value else left)
    && forall i | 0 <= i < |rows| :: rows[i] == s[o + i]
  }

  lemma PageCuts<R(!new)>(limit: Option<nat>, offset: Option<nat>, s: seq<R>)
    ensures Cut(limit, offset, s, Page(SpecLimit(limit), SpecOffset(offset), s))
  {
  }

  // ----- columns -----

  /** out is row r as a query shows it that selects the columns fs, all of them if there are none: with its id, its
      foreign keys where a load or the selection asks for them, and exactly the selected ones of its other columns. */
  ghost predicate Shown(fs: seq<RowColumn>, proxy: bool, parent: bool, r: AccountRow, out: AccountRow) {
    && out.id == r.id
    && (fs == [] ==> out == r)
    && (fs != [] ==>
          && out.proxyId == (if proxy || ProxyIdCol in fs then r.proxyId else None)
          && out.parentId == (if parent || ParentIdCol in fs then r.parentId else None)
          && (forall k :: k in out.data <==> k in r.data && DataCol(k) in fs)
          && forall k | k in out.data :: out.data[k] == r.data[k])
  }

  lemma {:induction false} SelectedColumns(q: Plan, c: RowColumn)
    requires q.fields != []
    ensures Columns(q).Some?
    ensures c in Columns(q).value <==>
      c == IdCol || c in q.fields || (c == ProxyIdCol && q.withProxy.Some?) || (c == ParentIdCol && q.withParent.Some?)
  {
    var f := Filter(NotIdCol(), q.fields);
    FilterIn(NotIdCol(), q.fields, c);
    assert c in [IdCol] + f <==> c == IdCol || c in f;
  }

  /** The id is the first of the selected columns and none of the others. */
  lemma {:induction false} IdComesFirst(q: Plan)
    requires q.fields != []
    ensures var cs := Columns(q).value; cs != [] && cs[0] == IdCol && IdCol !in cs[1..]
  {
    var f := Filter(NotIdCol(), q.fields);
    FilterIn(NotIdCol(), q.fields, IdCol);
    AddOnceFirst([IdCol] + f, ProxyIdCol);
    AddOnceFirst([IdCol] + f, ParentIdCol);
    AddOnceFirst(AddOnce([IdCol] + f, ProxyIdCol), ParentIdCol);
  }

  lemma {:induction false} AddOnceFirst(cs: seq<RowColumn>, c: RowColumn)
    requires cs != [] && c != IdCol
    ensures var more := AddOnce(cs, c); more != [] && more[0] == cs[0] && (IdCol in more[1..] <==> IdCol in cs[1..])
  {
    assert AddOnce(cs, c)[1..] == cs[1..] || AddOnce(cs, c)[1..] == cs[1..] + [c];
  }

  lemma {:induction false} ProjectShows(q: Plan, r: AccountRow)
    ensures Shown(q.fields, q.withProxy.Some?, q.withParent.Some?, r, Project(Columns(q))(r))
  {
    if q.fields != [] {
      SelectedColumns(q, IdCol);
      SelectedColumns(q, ProxyIdCol);
      SelectedColumns(q, ParentIdCol);
      forall k ensures DataCol(k) in Columns(q).value <==> DataCol(k) in q.fields { SelectedColumns(q, DataCol(k)); }
    }
  }

  lemma {:induction false} KeptShows(q: Plan, r: AccountRow)
    ensures Shown(q.fields, q.withProxy.Some?, true, r, Project(Columns(KeepParentColumn(q)))(r))
  {
    var k := KeepParentColumn(q);
    ProjectShows(k, r);
    assert q.fields != [] ==> ParentIdCol in k.fields && forall c | c != ParentIdCol :: c in k.fields <==> c in q.fields;
  }

  /** The two rows look the same in what the query shows of them. */
  ghost predicate LookAlike(q: Plan, a: AccountRow, b: AccountRow) {
    forall x, y | Shown(q.fields, q.withProxy.Some?, q.withParent.Some?, a, x)
               && Shown(q.fields, q.withProxy.Some?, q.withParent.Some?, b, y) :: x == y
  }

  lemma {:induction false} ShownOnce(q: Plan, r: AccountRow, x: AccountRow)
    requires Shown(q.fields, q.withProxy.Some?, q.withParent.Some?, r, x)
    ensures x == Project(Columns(q))(r)
  {
    ProjectShows(q, r);
    assert q.fields != [] ==> x.data == Project(Columns(q))(r).data;
  }

  lemma {:induction false} AlikeMeans(q: Plan, a: AccountRow, b: AccountRow)
    ensures Project(Columns(q))(a) == Project(Columns(q))(b) <==> LookAlike(q, a, b)
  {
    ProjectShows(q, a);
    ProjectShows(q, b);
    forall x, y | Shown(q.fields, q.withProxy.Some?, q.withParent.Some?, a, x)
               && Shown(q.fields, q.withProxy.Some?, q.withParent.Some?, b, y)
      ensures x == Project(Columns(q))(a) && y == Project(Columns(q))(b)
    {
      ShownOnce(q, a, x);
      ShownOnce(q, b, y);
    }
  }

  // ----- the rows of a query -----

  ghost function Matching<R(!new)>(preds: seq<R -> bool>): R -> bool { (x: R) => Holds(preds, x) }

  lemma MatchingAll<R(!new)>(preds: seq<R -> bool>)
    ensures forall x :: All(preds)(x) == Matching(preds)(x)
  {
  }

  /** s holds, in order, one of the matching rows of the table for each look that one of them has. */
  ghost predicate OnePerLook(q: Plan, table: seq<AccountRow>, s: seq<AccountRow>) {
    && (forall x | x in s :: x in table && Holds(q.preds, x))
    && (forall x | x in table && Holds(q.preds, x) :: exists k | 0 <= k < |s| :: LookAlike(q, s[k], x))
    && (forall i, j | 0 <= i < j < |s| :: !LookAlike(q, s[i], s[j]))
    && Ordered(q.order, s)
  }

  lemma {:induction false} LookKept(q: Plan, once: seq<AccountRow>, s: seq<AccountRow>, x: AccountRow)
    requires HasKey(Project(Columns(q)), once, Project(Columns(q))(x)) && forall y :: y in s <==> y in once
    ensures exists k | 0 <= k < |s| :: LookAlike(q, s[k], x)
  {
    var f := Project(Columns(q));
    var m :| 0 <= m < |once| && f(once[m]) == f(x);
    assert once[m] in s;
    var k :| 0 <= k < |s| && s[k] == once[m];
    AlikeMeans(q, s[k], x);
  }

  lemma {:induction false} DistinctLooks(q: Plan, table: seq<AccountRow>)
    ensures OnePerLook(q, table, Sort(q.order, Distinct(Project(Columns(q)), Filter(All(q.preds), table))))
  {
    var f := Project(Columns(q));
    var kept := Filter(All(q.preds), table);
    var once := Distinct(f, kept);
    var s := Sort(q.order, once);
    DistinctCorrect(f, kept);
    SortCorrect(q.order, once);
    SortKeysDiffer(f, q.order, once);
    forall x ensures x in s <==> x in once { SortInOne(q.order, once, x); }
    forall x | x in s ensures x in table && Holds(q.preds, x) { FilterIn(All(q.preds), table, x); }
    forall x | x in table && Holds(q.preds, x) ensures exists k | 0 <= k < |s| :: LookAlike(q, s[k], x) {
      FilterIn(All(q.preds), table, x);
      assert x in kept;
      LookKept(q, once, s, x);
    }
    forall i, j | 0 <= i < j < |s| ensures !LookAlike(q, s[i], s[j]) { AlikeMeans(q, s[i], s[j]); }
    forall i, j | 0 <= i < j < |s| ensures InOrder(q.order, s[i], s[j]) { LeMeans(q.order, s[i], s[j]); }
  }

  /** The rows behind the result of All: of the table, or of the source of a traversal, those that match, in order; made
      unique if asked for, or, for a traversal, unless asked not to; then skipped and limited. */
  lemma {:induction false} AnswerRows(db: Database, q: Plan) returns (s: seq<AccountRow>)
    ensures var table := if q.source.Some? then q.source.value else db.accounts;
      if (if q.unique.Some? then q.unique.value else q.source.Some?) then OnePerLook(q, table, s)
      else Picked(table, Matching(q.preds), q.order, s)
    ensures Cut(q.limit, q.offset, s, Selected(db, q))
  {
    var kept := Filter(All(q.preds), Source(db, q));
    s := Sort(q.order, if IsUnique(q) then Distinct(Project(Columns(q)), kept) else kept);
    MatchingAll(q.preds);
    if IsUnique(q) { DistinctLooks(q, Source(db, q)); } else { SortPicks(Source(db, q), All(q.preds), Matching(q.preds), q.order); }
    PageCuts(q.limit, q.offset, s);
  }

  /** With one term the keys do not decrease, or do not increase if it is descending. */
  lemma {:induction false} OneTermOrders(db: Database, q: Plan, t: OrderTerm<AccountRow>, i: nat, j: nat)
    requires q.order == [t] && i < j < |Selected(db, q)|
    ensures var a, b := t.key(Selected(db, q)[i]), t.key(Selected(db, q)[j]); if t.desc then b <= a else a <= b
  {
    var s := AnswerRows(db, q);
    var o := if q.offset.Some? then q.offset.value else 0;
    assert InOrder(q.order, s[o + i], s[o + j]);
    assert |q.order| == 1 && q.order[0] == t;
  }

  /** Each of these rows is returned as the selection shows it, with the flags of the edges that were asked for. */
  lemma {:induction false} AnswerColumns(db: Database, q: Plan)
    ensures |Batched(db, q)| == |Selected(db, q)|
    ensures forall i | 0 <= i < |Batched(db, q)| ::
      && Shown(q.fields, q.withProxy.Some?, q.withParent.Some?, Selected(db, q)[i], Batched(db, q)[i].row)
      && Batched(db, q)[i].loaded
         == Loaded(q.withGroups.Some?, q.withProxy.Some?, q.withParent.Some?, q.withChildren.Some?, q.withUsageLogs.Some?)
  {
    forall i | 0 <= i < |Selected(db, q)|
      ensures Shown(q.fields, q.withProxy.Some?, q.withParent.Some?, Selected(db, q)[i], RowsOf(db, q)[i])
    {
      ProjectShows(q, Selected(db, q)[i]);
    }
  }

  // ----- neighbours -----

  ghost function Logged(lq: LeafQuery<UsageRow>, id: int): UsageRow -> bool {
    (u: UsageRow) => u.accountId == id && Holds(lq.preds, u)
  }

  ghost function ChildOf(cq: Plan, id: int): AccountRow -> bool {
    (x: AccountRow) => x.parentId == Some(id) && Holds(cq.preds, x)
  }

  ghost predicate LoadsGroups(db: Database, g: Option<GroupsQuery>, id: int, gs: seq<GroupRow>) {
    match g
    case None => gs == []
    case Some(gq) =>
      && (forall i, j | 0 <= i < j < |gs| :: gs[i].id != gs[j].id)
      && forall x :: x in gs <==> Holds(gq.asked.preds, x) && exists j | j in db.groupJoin :: j.accountId == id && j.group == x
  }

  ghost predicate IsProxy(db: Database, lq: LeafQuery<ProxyRow>, key: Option<int>, p: ProxyRow) {
    p in db.proxies && key == Some(p.id) && Holds(lq.preds, p)
  }

  ghost predicate LoadsProxy(db: Database, x: Option<LeafQuery<ProxyRow>>, key: Option<int>, p: Option<ProxyRow>) {
    match x
    case None => p.None?
    case Some(lq) => match p case Some(y) => IsProxy(db, lq, key, y) case None => !exists y :: IsProxy(db, lq, key, y)
  }

  ghost predicate LoadsLogs(db: Database, u: Option<LeafQuery<UsageRow>>, id: int, us: seq<UsageRow>) {
    match u
    case None => us == []
    case Some(lq) => Picked(db.usageLogs, Logged(lq, id), lq.order, us)
  }

  ghost predicate IsParent(db: Database, pq: Plan, key: Option<int>, x: AccountRow) {
    x in db.accounts && key == Some(x.id) && Holds(pq.preds, x)
  }

  /** What is loaded of r itself and of the other tables. */
  ghost predicate LoadsLeaves(db: Database, q: Plan, keep: bool, r: AccountRow, t: Tree) {
    && Shown(q.fields, q.withProxy.Some?, q.withParent.Some? || keep, r, t.row)
    && t.loaded == Loaded(q.withGroups.Some?, q.withProxy.Some?, q.withParent.Some?, q.withChildren.Some?, q.withUsageLogs.Some?)
    && LoadsGroups(db, q.withGroups, r.id, t.groups)
    && LoadsProxy(db, q.withProxy, r.proxyId, t.proxy)
    && LoadsLogs(db, q.withUsageLogs, r.id, t.usageLogs)
  }

  /** Tree t is account r with everything that q asks to load, at every depth; keep: the parent's key is shown whatever is
      selected. */
  ghost predicate Loads(db: Database, q: Plan, keep: bool, r: AccountRow, t: Tree)
    decreases Height(q)
  {
    && LoadsLeaves(db, q, keep, r, t)
    && (if q.withParent.None? then t.parent.None?
        else if t.parent.None? then !exists x :: IsParent(db, q.withParent.value, r.parentId, x)
        else exists x :: IsParent(db, q.withParent.value, r.parentId, x) && Loads(db, q.withParent.value, false, x, t.parent.value))
    && (if q.withChildren.None? then t.children == []
        else exists xs | Children(db, q.withChildren.value, r.id, xs) && |xs| == |t.children| ::
               forall k | 0 <= k < |xs| :: Loads(db, q.withChildren.value, true, xs[k], t.children[k]))
  }

  ghost predicate Children(db: Database, cq: Plan, id: int, xs: seq<AccountRow>) {
    Picked(db.accounts, ChildOf(cq, id), cq.order, xs)
  }

  lemma {:induction false} GroupsMean(db: Database, g: GroupsQuery, id: int)
    requires GroupsDetermined(db.groupJoin) && Unpaged(g.asked.limit, g.asked.offset)
    ensures LoadsGroups(db, Some(g), id,
      Map(GroupOf(), Distinct(GroupIdOf(), LeafRows(db.groupJoin, LeafWhere(Lifted(g.asked), JoinedIs(id))))))
  {
    var js := LeafRows(db.groupJoin, LeafWhere(Lifted(g.asked), JoinedIs(id)));
    forall j ensures j in js <==> j in db.groupJoin && j.accountId == id && Holds(g.asked.preds, j.group) {
      LeafHas(db.groupJoin, Lifted(g.asked), JoinedIs(id), j);
      LiftedHolds(g.asked, j);
    }
    FilterAll(JoinedIs(id), js);
    GroupsAlone(js, id);
    var gs := Map(GroupOf(), Distinct(GroupIdOf(), js));
    forall i, j | 0 <= i < j < |gs| ensures gs[i].id != gs[j].id { assert GroupKey()(gs[i]) != GroupKey()(gs[j]); }
  }

  lemma LiftedHolds(q: LeafQuery<GroupRow>, j: JoinRow)
    ensures All(Lifted(q).preds)(j) <==> Holds(q.preds, j.group)
  {
    assert forall k | 0 <= k < |q.preds| :: Lifted(q).preds[k](j) == q.preds[k](j.group);
  }

  lemma LeafHas<R>(table: seq<R>, lq: LeafQuery<R>, p: R -> bool, x: R)
    requires Unpaged(lq.limit, lq.offset)
    ensures x in LeafRows(table, LeafWhere(lq, p)) <==> x in table && p(x) && All(lq.preds)(x)
  {
    var w := LeafWhere(lq, p);
    SortInOne(lq.order, Filter(All(w.preds), table), x);
    FilterIn(All(w.preds), table, x);
    AllSnoc(lq.preds, p, x);
  }

  lemma ProxyMeans(db: Database, lq: LeafQuery<ProxyRow>, k: int)
    requires Unpaged(lq.limit, lq.offset)
    ensures LoadsProxy(db, Some(lq), Some(k), Last(LeafRows(db.proxies, LeafWhere(lq, ProxyIs(k)))))
  {
    var ps := LeafRows(db.proxies, LeafWhere(lq, ProxyIs(k)));
    forall y ensures y in ps <==> IsProxy(db, lq, Some(k), y) { LeafHas(db.proxies, lq, ProxyIs(k), y); }
    assert ps != [] ==> ps[|ps| - 1] in ps;
    assert ps == [] ==> forall y :: y !in ps;
  }

  lemma LogsMean(db: Database, lq: LeafQuery<UsageRow>, id: int)
    requires Unpaged(lq.limit, lq.offset)
    ensures LoadsLogs(db, Some(lq), id, LeafRows(db.usageLogs, LeafWhere(lq, UsageIs(id))))
  {
    forall x ensures All(lq.preds + [UsageIs(id)])(x) == Logged(lq, id)(x) { AllSnoc(lq.preds, UsageIs(id), x); }
    SortPicks(db.usageLogs, All(lq.preds + [UsageIs(id)]), Logged(lq, id), lq.order);
  }

  lemma {:induction false} ChildrenMean(db: Database, cq: Plan, id: int)
    requires ValidDatabase(db) && PlainSub(cq)
    ensures Children(db, cq, id, Selected(db, Where(KeepParentColumn(cq), ParentIs(id))))
  {
    var w := Where(KeepParentColumn(cq), ParentIs(id));
    SelectedPlain(db, w);
    forall x ensures All(cq.preds + [ParentIs(id)])(x) == ChildOf(cq, id)(x) { AllSnoc(cq.preds, ParentIs(id), x); }
    SortPicks(db.accounts, All(w.preds), ChildOf(cq, id), cq.order);
  }

  lemma {:induction false} ParentMeans(db: Database, pq: Plan, k: int)
    requires ValidDatabase(db) && PlainSub(pq)
    ensures forall x :: x in Selected(db, Where(pq, IdIs(k))) <==> IsParent(db, pq, Some(k), x)
  {
    forall x ensures x in Selected(db, Where(pq, IdIs(k))) <==> IsParent(db, pq, Some(k), x) {
      SelectedPlainIn(db, Where(pq, IdIs(k)), x);
      AllSnoc(pq.preds, IdIs(k), x);
    }
  }

  function Asked(q: Plan, keep: bool): Plan { if keep then KeepParentColumn(q) else q }

  lemma {:induction false} LeavesLoad(db: Database, q: Plan, keep: bool, r: AccountRow)
    requires ValidDatabase(db) && NestedUnpaged(q)
    ensures LoadsLeaves(db, q, keep, r, NaiveNode(db, Asked(q, keep), r))
  {
    NaiveLeaves(db, Asked(q, keep), r);
    if keep { KeptShows(q, r); } else { ProjectShows(q, r); }
    if q.withGroups.Some? { GroupsMean(db, q.withGroups.value, r.id); }
    if q.withProxy.Some? && r.proxyId.Some? { ProxyMeans(db, q.withProxy.value, r.proxyId.value); }
    if q.withUsageLogs.Some? { LogsMean(db, q.withUsageLogs.value, r.id); }
  }

  lemma {:induction false} ParentLoads(db: Database, pq: Plan, k: int)
    requires ValidDatabase(db) && PlainSub(pq)
    requires forall x :: Loads(db, pq, false, x, NodeOf(db, pq)(x))
    ensures var p := Last(Naive(db, Where(pq, IdIs(k))));
      if p.None? then !exists x :: IsParent(db, pq, Some(k), x)
      else exists x :: IsParent(db, pq, Some(k), x) && Loads(db, pq, false, x, p.value)
  {
    var s := Selected(db, Where(pq, IdIs(k)));
    ParentMeans(db, pq, k);
    NaiveWhere(db, pq, IdIs(k));
    if s == [] {
      assert forall x :: x !in s;
    } else {
      var x := s[|s| - 1];
      assert x in s && Loads(db, pq, false, x, NodeOf(db, pq)(x));
    }
  }

  lemma {:induction false} ChildrenLoad(db: Database, cq: Plan, id: int)
    requires ValidDatabase(db) && PlainSub(cq)
    requires forall x :: Loads(db, cq, true, x, NodeOf(db, KeepParentColumn(cq))(x))
    ensures var ts := Naive(db, Where(KeepParentColumn(cq), ParentIs(id)));
      exists xs | Children(db, cq, id, xs) && |xs| == |ts| :: forall k | 0 <= k < |xs| :: Loads(db, cq, true, xs[k], ts[k])
  {
    var xs := Selected(db, Where(KeepParentColumn(cq), ParentIs(id)));
    ChildrenMean(db, cq, id);
    NaiveWhere(db, KeepParentColumn(cq), ParentIs(id));
    assert Children(db, cq, id, xs);
  }

  lemma {:induction false} NaiveParentLoads(db: Database, q: Plan, keep: bool, r: AccountRow, p: Option<Tree>)
    requires ValidDatabase(db) && NestedUnpaged(q) && q.withParent.Some? && p == NaiveNode(db, Asked(q, keep), r).parent
    requires forall x :: Loads(db, q.withParent.value, false, x, NodeOf(db, q.withParent.value)(x))
    ensures if p.None? then !exists x :: IsParent(db, q.withParent.value, r.parentId, x)
            else exists x :: IsParent(db, q.withParent.value, r.parentId, x) && Loads(db, q.withParent.value, false, x, p.value)
  {
    NaiveAccounts(db, Asked(q, keep), r);
    if r.parentId.Some? { ParentLoads(db, q.withParent.value, r.parentId.value); }
  }

  lemma {:induction false} NaiveChildrenLoad(db: Database, q: Plan, keep: bool, r: AccountRow, ts: seq<Tree>)
    requires ValidDatabase(db) && NestedUnpaged(q) && q.withChildren.Some? && ts == NaiveNode(db, Asked(q, keep), r).children
    requires forall x :: Loads(db, q.withChildren.value, true, x, NodeOf(db, KeepParentColumn(q.withChildren.value))(x))
    ensures exists xs | Children(db, q.withChildren.value, r.id, xs) && |xs| == |ts| ::
      forall k | 0 <= k < |xs| :: Loads(db, q.withChildren.value, true, xs[k], ts[k])
  {
    NaiveAccounts(db, Asked(q, keep), r);
    ChildrenLoad(db, q.withChildren.value, r.id);
  }

  lemma {:induction false} NoSubs(db: Database, q: Plan, r: AccountRow)
    ensures q.withParent.None? ==> NaiveNode(db, q, r).parent.None?
    ensures q.withChildren.None? ==> NaiveNode(db, q, r).children == []
  {
  }

  lemma {:induction false} NodeLoads(db: Database, q: Plan, keep: bool, r: AccountRow, t: Tree)
    requires ValidDatabase(db) && NestedUnpaged(q) && t == NaiveNode(db, Asked(q, keep), r)
    requires q.withParent.Some? ==> forall x :: Loads(db, q.withParent.value, false, x, NodeOf(db, q.withParent.value)(x))
    requires q.withChildren.Some? ==>
               forall x :: Loads(db, q.withChildren.value, true, x, NodeOf(db, KeepParentColumn(q.withChildren.value))(x))
    ensures Loads(db, q, keep, r, t)
  {
    NoSubs(db, Asked(q, keep), r);
    if q.withParent.Some? { NaiveParentLoads(db, q, keep, r, t.parent); }
    if q.withChildren.Some? { NaiveChildrenLoad(db, q, keep, r, t.children); }
    LeavesLoad(db, q, keep, r);
    LoadsFrom(db, q, keep, r, t);
  }

  lemma {:induction false} NaiveLoads(db: Database, q: Plan, keep: bool, r: AccountRow)
    requires ValidDatabase(db) && NestedUnpaged(q)
    ensures Loads(db, q, keep, r, NaiveNode(db, Asked(q, keep), r))
    decreases Height(q)
  {
    if q.withParent.Some? {
      var pq := q.withParent.value;
      forall x ensures Loads(db, pq, false, x, NodeOf(db, pq)(x)) { NaiveLoads(db, pq, false, x); }
    }
    if q.withChildren.Some? {
      var cq := q.withChildren.value;
      forall x ensures Loads(db, cq, true, x, NodeOf(db, KeepParentColumn(cq))(x)) { NaiveLoads(db, cq, true, x); }
    }
    NodeLoads(db, q, keep, r, NaiveNode(db, Asked(q, keep), r));
  }

  lemma {:induction false} LoadsFrom(db: Database, q: Plan, keep: bool, r: AccountRow, t: Tree)
    requires LoadsLeaves(db, q, keep, r, t)
    requires if q.withParent.None? then t.parent.None?
             else if t.parent.None? then !exists x :: IsParent(db, q.withParent.value, r.parentId, x)
             else exists x :: IsParent(db, q.withParent.value, r.parentId, x) && Loads(db, q.withParent.value, false, x, t.parent.value)
    requires if q.withChildren.None? then t.children == []
             else exists xs | Children(db, q.withChildren.value, r.id, xs) && |xs| == |t.children| ::
                    forall k | 0 <= k < |xs| :: Loads(db, q.withChildren.value, true, xs[k], t.children[k])
    ensures Loads(db, q, keep, r, t)
  {
  }

  lemma {:induction false} LoadsAlike(db: Database, q: Plan, keep: bool, r: AccountRow, t: Tree, u: Tree)
    requires Alike(false, t, u) && Loads(db, q, keep, r, u)
    ensures Loads(db, q, keep, r, t)
    decreases Height(q)
  {
    forall x ensures x in t.groups <==> x in u.groups { assert x in multiset(t.groups) <==> x in multiset(u.groups); }
    forall i, j | 0 <= i < j < |t.groups| ensures t.groups[i].id != t.groups[j].id {
      assert GroupKey()(t.groups[i]) != GroupKey()(t.groups[j]);
    }
    assert |multiset(t.groups)| == |t.groups| && |multiset(u.groups)| == |u.groups|;
    if q.withParent.Some? && t.parent.Some? {
      var pq := q.withParent.value;
      var x :| IsParent(db, pq, r.parentId, x) && Loads(db, pq, false, x, u.parent.value);
      LoadsAlike(db, pq, false, x, t.parent.value, u.parent.value);
    }
    if q.withChildren.Some? {
      var cq := q.withChildren.value;
      var xs :| Children(db, cq, r.id, xs) && |xs| == |u.children|
             && forall k | 0 <= k < |xs| :: Loads(db, cq, true, xs[k], u.children[k]);
      forall k | 0 <= k < |xs| ensures Loads(db, cq, true, xs[k], t.children[k]) {
        LoadsAlike(db, cq, true, xs[k], t.children[k], u.children[k]);
      }
    }
  }

  /** The first run of a builder loads what was asked for: every node that no later one of the same id shadows is its row
      with its selected columns, its flags and all its neighbours, and so at every depth. */
  lemma {:induction false} AllLoads(db: Database, q: Plan, i: nat)
    requires ValidDatabase(db) && NestedUnpaged(q) && Unjoined(q)
    requires i < |Selected(db, q)| && forall j | i < j < |Selected(db, q)| :: Selected(db, q)[j].id != Selected(db, q)[i].id
    ensures |Batched(db, q)| == |Selected(db, q)| && Loads(db, q, false, Selected(db, q)[i], Batched(db, q)[i])
  {
    var s, rows := Selected(db, q), RowsOf(db, q);
    BatchedExactly(db, q);
    NaiveNodes(db, q);
    NaiveLoads(db, q, false, s[i]);
    forall j | i <= j < |s| ensures rows[j].id == s[j].id { ProjectKeepsKeys(q, s[j]); }
    LoadsAlike(db, q, false, s[i], Batched(db, q)[i], Naive(db, q)[i]);
  }

  // ----- the calls on a builder -----

  /** Call j is the last of its kind. */
  ghost predicate Final(ops: seq<Op>, kind: Op -> bool, j: int) {
    0 <= j < |ops| && kind(ops[j]) && forall k | j < k < |ops| :: !kind(ops[k])
  }

  ghost predicate Absent(ops: seq<Op>, kind: Op -> bool) { forall k | 0 <= k < |ops| :: !kind(ops[k]) }

  /** w is what the last call of a kind says, or else what was there. */
  ghost predicate LastSays<T(!new)>(ops: seq<Op>, kind: Op -> bool, says: Op -> T, was: T, w: T) {
    && (Absent(ops, kind) ==> w == was)
    && forall j | Final(ops, kind, j) :: w == says(ops[j])
  }

  lemma {:induction false} LastCounts<T(!new)>(q: Plan, ops: seq<Op>, kind: Op -> bool, get: Plan -> T, says: Op -> T)
    requires forall v, op :: get(Step(v, op)) == if kind(op) then says(op) else get(v)
    ensures LastSays(ops, kind, says, get(q), get(Steps(q, ops)))
    decreases |ops|
  {
    if ops != [] {
      var init, n := ops[..|ops| - 1], |ops| - 1;
      LastCounts(q, init, kind, get, says);
      assert forall k | 0 <= k < n :: init[k] == ops[k];
      forall j | Final(ops, kind, j) ensures get(Steps(q, ops)) == says(ops[j]) {
        if j < n {
          assert !kind(ops[n]) && Final(init, kind, j);
        }
      }
    }
  }

  function LimitOf(): Op -> Option<nat> { (op: Op) => if op.LimitOp? then Some(op.limit) else None }
  function OffsetOf(): Op -> Option<nat> { (op: Op) => if op.OffsetOp? then Some(op.offset) else None }
  function UniqueOf(): Op -> Option<bool> { (op: Op) => Some(op.UniqueOp? && op.unique) }

  /** Of the calls that replace a setting the last one counts; a row lock on Postgres is one that excludes uniqueness. */
  lemma {:induction false} LastSettingCounts(q: Plan, ops: seq<Op>)
    ensures LastSays(ops, (op: Op) => op.LimitOp?, LimitOf(), q.limit, Steps(q, ops).limit)
    ensures LastSays(ops, (op: Op) => op.OffsetOp?, OffsetOf(), q.offset, Steps(q, ops).offset)
    ensures LastSays(ops, (op: Op) => op.UniqueOp? || ((op.ForUpdateOp? || op.ForShareOp?) && op.postgres), UniqueOf(),
                     q.unique, Steps(q, ops).unique)
  {
    LastCounts(q, ops, (op: Op) => op.LimitOp?, (v: Plan) => v.limit, LimitOf());
    LastCounts(q, ops, (op: Op) => op.OffsetOp?, (v: Plan) => v.offset, OffsetOf());
    LastCounts(q, ops, (op: Op) => op.UniqueOp? || ((op.ForUpdateOp? || op.ForShareOp?) && op.postgres),
               (v: Plan) => v.unique, UniqueOf());
  }

  function GroupsAsked(): Op -> Option<GroupsQuery> {
    (op: Op) => if op.WithGroupsOp? then Some(GroupsQuery(op.groups, [])) else None
  }
  function ProxyAsked(): Op -> Option<LeafQuery<ProxyRow>> { (op: Op) => if op.WithProxyOp? then Some(op.proxy) else None }
  function LogsAsked(): Op -> Option<LeafQuery<UsageRow>> { (op: Op) => if op.WithUsageLogsOp? then Some(op.usageLogs) else None }
  function ParentOpts(): Op -> Option<Plan> { (op: Op) => if op.WithParentOp? then Some(Steps(EmptyPlan, op.opts)) else None }
  function ChildrenOpts(): Op -> Option<Plan> {
    (op: Op) => if op.WithChildrenOp? then Some(Steps(EmptyPlan, op.opts)) else None
  }

  lemma {:induction false} GroupsCount(q: Plan, ops: seq<Op>)
    ensures LastSays(ops, (op: Op) => op.WithGroupsOp?, GroupsAsked(), q.withGroups, Steps(q, ops).withGroups)
  {
    LastCounts(q, ops, (op: Op) => op.WithGroupsOp?, (v: Plan) => v.withGroups, GroupsAsked());
  }

  lemma {:induction false} ProxyCounts(q: Plan, ops: seq<Op>)
    ensures LastSays(ops, (op: Op) => op.WithProxyOp?, ProxyAsked(), q.withProxy, Steps(q, ops).withProxy)
  {
    LastCounts(q, ops, (op: Op) => op.WithProxyOp?, (v: Plan) => v.withProxy, ProxyAsked());
  }

  lemma {:induction false} LogsCount(q: Plan, ops: seq<Op>)
    ensures LastSays(ops, (op: Op) => op.WithUsageLogsOp?, LogsAsked(), q.withUsageLogs, Steps(q, ops).withUsageLogs)
  {
    LastCounts(q, ops, (op: Op) => op.WithUsageLogsOp?, (v: Plan) => v.withUsageLogs, LogsAsked());
  }

  lemma {:induction false} ParentCounts(q: Plan, ops: seq<Op>)
    ensures LastSays(ops, (op: Op) => op.WithParentOp?, ParentOpts(), q.withParent, Steps(q, ops).withParent)
  {
    LastCounts(q, ops, (op: Op) => op.WithParentOp?, (v: Plan) => v.withParent, ParentOpts());
  }

  lemma {:induction false} ChildrenCount(q: Plan, ops: seq<Op>)
    ensures LastSays(ops, (op: Op) => op.WithChildrenOp?, ChildrenOpts(), q.withChildren, Steps(q, ops).withChildren)
  {
    LastCounts(q, ops, (op: Op) => op.WithChildrenOp?, (v: Plan) => v.withChildren, ChildrenOpts());
  }

  /** An edge is loaded as its last With call says, whose options are calls on a new builder. */
  lemma {:induction false} LastWithCounts(q: Plan, ops: seq<Op>)
    ensures LastSays(ops, (op: Op) => op.WithGroupsOp?, GroupsAsked(), q.withGroups, Steps(q, ops).withGroups)
    ensures LastSays(ops, (op: Op) => op.WithProxyOp?, ProxyAsked(), q.withProxy, Steps(q, ops).withProxy)
    ensures LastSays(ops, (op: Op) => op.WithUsageLogsOp?, LogsAsked(), q.withUsageLogs, Steps(q, ops).withUsageLogs)
    ensures LastSays(ops, (op: Op) => op.WithParentOp?, ParentOpts(), q.withParent, Steps(q, ops).withParent)
    ensures LastSays(ops, (op: Op) => op.WithChildrenOp?, ChildrenOpts(), q.withChildren, Steps(q, ops).withChildren)
  {
    GroupsCount(q, ops);
    ProxyCounts(q, ops);
    LogsCount(q, ops);
    ParentCounts(q, ops);
    ChildrenCount(q, ops);
  }

  /** Predicates, order terms and selected columns add up, in the order of the calls. */
  lemma {:induction false} CallsAddUp(q: Plan, ops: seq<Op>)
    ensures var w := Steps(q, ops);
      && (forall x: AccountRow :: Holds(w.preds, x) <==>
            Holds(q.preds, x) && forall k | 0 <= k < |ops| && ops[k].WhereOp? :: ops[k].p(x))
      && w.order == q.order + Terms(ops)
      && w.fields == q.fields + Selections(ops)
    decreases |ops|
  {
    if ops != [] {
      var init, op := ops[..|ops| - 1], ops[|ops| - 1];
      var v, w := Steps(q, init), Steps(q, ops);
      CallsAddUp(q, init);
      StepAdds(v, op);
      assert forall k | 0 <= k < |init| :: init[k] == ops[k];
      forall x: AccountRow
        ensures Holds(w.preds, x) <==> Holds(q.preds, x) && forall k | 0 <= k < |ops| && ops[k].WhereOp? :: ops[k].p(x)
      {
        if op.WhereOp? { AllSnoc(v.preds, op.p, x); }
        assert Holds(w.preds, x) <==> Holds(v.preds, x) && (op.WhereOp? ==> op.p(x));
        assert (forall k | 0 <= k < |ops| && ops[k].WhereOp? :: ops[k].p(x)) <==>
          (forall k | 0 <= k < |init| && init[k].WhereOp? :: init[k].p(x)) && (op.WhereOp? ==> op.p(x));
      }
    }
  }

  function Terms(ops: seq<Op>): seq<OrderTerm<AccountRow>> {
    if ops == [] then [] else Terms(ops[..|ops| - 1]) + match ops[|ops| - 1] case OrderOp(t) => [t] case _ => []
  }

  function Selections(ops: seq<Op>): seq<RowColumn> {
    if ops == [] then [] else Selections(ops[..|ops| - 1]) + match ops[|ops| - 1] case SelectOp(fs) => fs case _ => []
  }

  lemma {:induction false} StepAdds(q: Plan, op: Op)
    ensures var w := Step(q, op);
      && w.preds == q.preds + (if op.WhereOp? then [op.p] else [])
      && w.order == q.order + (if op.OrderOp? then [op.term] else [])
      && w.fields == q.fields + if op.SelectOp? then op.fields else []
  {
  }
}
