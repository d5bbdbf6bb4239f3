/** Limit and Offset on a sub-query apply to the batch as a whole, not to each node's neighbours. */
module Paging {
  import opened Relational
  import opened AccountFields
  import opened EagerLoading
  import opened BatchingCorrect
  import opened LoadedEdges
  import opened GroupOrder
  import opened Sealing

  function ByGroupId(): OrderTerm<GroupRow> { OrderTerm((g: GroupRow) => g.id, false) }

  /** All accounts with one of their edges, which is limited and skips as given. */
  function Paged(e: Edge, limit: Option<nat>, offset: Option<nat>): Plan {
    var sub := EmptyPlan.(limit := limit, offset := offset);
    match e
    case Groups => EmptyPlan.(withGroups := Some(GroupsQuery(LeafQuery([], [ByGroupId()], limit, offset), [])))
    case Proxy => EmptyPlan.(withProxy := Some(LeafQuery([], [], limit, offset)))
    case Parent => EmptyPlan.(withParent := Some(sub))
    case Children => EmptyPlan.(withChildren := Some(sub))
    case UsageLogs => EmptyPlan.(withUsageLogs := Some(LeafQuery([], [], limit, offset)))
  }

  // ----- a table on which paging shows -----

  function Elders(w: nat): seq<AccountRow> { seq(w, i => AccountRow(i, Some(i), None, map[])) }
  function Kids(w: nat): seq<AccountRow> { seq(w, i => AccountRow(w + i, None, Some(i), map[])) }

  /** w accounts, each with a proxy, a child, a usage log and a group of its own. */
  function Town(w: nat): Database {
    Database(Elders(w) + Kids(w), seq(w, i => ProxyRow(i, "")), seq(w, i => UsageRow(i, i, "")),
             seq(w, i => JoinRow(i, GroupRow(i, ""))))
  }

  /** So many rows come before the one that the page of the batch treats otherwise than the page of its own. */
  function Before(limit: Option<nat>, offset: Option<nat>): nat
    requires !Unpaged(limit, offset)
  {
    if SpecOffset(offset) > 0 then SpecOffset(offset) else limit.value
  }

  /** The last row is on the page of all rows exactly when it is not on a page of its own. */
  lemma PageCut<R>(limit: Option<nat>, offset: Option<nat>, rows: seq<R>, narrow: R -> bool)
    requires !Unpaged(limit, offset) && |rows| == Before(limit, offset) + 1
    requires forall i | 0 <= i < |rows| :: narrow(rows[i]) <==> i == |rows| - 1
    ensures Filter(narrow, Page(SpecLimit(limit), SpecOffset(offset), rows)) == []
       <==> Page(SpecLimit(limit), SpecOffset(offset), [rows[|rows| - 1]]) != []
  {
    var page, x := Page(SpecLimit(limit), SpecOffset(offset), rows), rows[|rows| - 1];
    if SpecOffset(offset) > 0 {
      assert page == [x];
      FilterAll(narrow, page);
    } else {
      assert page == rows[..|rows| - 1];
      FilterNone(narrow, page);
    }
  }

  lemma {:induction false} LeafCut<R>(table: seq<R>, q: LeafQuery<R>, rows: seq<R>, wide: R -> bool, narrow: R -> bool)
    requires q.preds == [] && Sorted(q.order, rows)
    requires !Unpaged(q.limit, q.offset) && |rows| == Before(q.limit, q.offset) + 1
    requires Filter(wide, table) == rows && Filter(narrow, table) == [rows[|rows| - 1]]
    requires forall i | 0 <= i < |rows| :: narrow(rows[i]) <==> i == |rows| - 1
    ensures Filter(narrow, LeafRows(table, LeafWhere(q, wide))) == [] <==> LeafRows(table, LeafWhere(q, narrow)) != []
  {
    OneTest(wide, table);
    OneTest(narrow, table);
    SortSorted(q.order, rows);
    SortSorted(q.order, [rows[|rows| - 1]]);
    PageCut(q.limit, q.offset, rows, narrow);
  }

  lemma {:induction false} OneTest<R>(p: R -> bool, table: seq<R>)
    ensures Filter(All([] + [p]), table) == Filter(p, table)
  {
    forall x ensures All([] + [p])(x) == p(x) { AllSnoc([], p, x); }
    FilterAgree(All([] + [p]), p, table);
  }

  /** A table of which wide keeps the rows between two parts, and narrow the last of these. */
  lemma {:induction false} PartCut<R>(table: seq<R>, a: seq<R>, rows: seq<R>, b: seq<R>, q: LeafQuery<R>,
                                      wide: R -> bool, narrow: R -> bool)
    requires table == a + rows + b && q.preds == [] && Sorted(q.order, rows)
    requires !Unpaged(q.limit, q.offset) && |rows| == Before(q.limit, q.offset) + 1
    requires forall i | 0 <= i < |rows| :: wide(rows[i]) && (narrow(rows[i]) <==> i == |rows| - 1)
    requires forall x | x in a || x in b :: !wide(x) && !narrow(x)
    ensures Filter(narrow, LeafRows(table, LeafWhere(q, wide))) == [] <==> LeafRows(table, LeafWhere(q, narrow)) != []
  {
    LastOf(rows, narrow);
    FilterAll(wide, rows);
    FilterMiddle(wide, a, rows, b);
    FilterMiddle(narrow, a, rows, b);
    LeafCut(table, q, rows, wide, narrow);
  }

  lemma {:induction false} FilterMiddle<R>(p: R -> bool, a: seq<R>, rows: seq<R>, b: seq<R>)
    requires forall x | x in a || x in b :: !p(x)
    ensures Filter(p, a + rows + b) == Filter(p, rows)
  {
    FilterConcat(p, a + rows, b);
    FilterConcat(p, a, rows);
    FilterNone(p, a);
    FilterNone(p, b);
    assert [] + Filter(p, rows) + [] == Filter(p, rows);
  }

  lemma {:induction false} LastOf<R>(s: seq<R>, p: R -> bool)
    requires s != [] && forall i | 0 <= i < |s| :: p(s[i]) <==> i == |s| - 1
    ensures Filter(p, s) == [s[|s| - 1]]
  {
    FilterNone(p, s[..|s| - 1]);
    FilterSnoc(p, s[..|s| - 1], s[|s| - 1]);
    assert s == s[..|s| - 1] + [s[|s| - 1]] && [] + [s[|s| - 1]] == [s[|s| - 1]];
  }

  /** A query of all accounts. */
  predicate AsksAll(q: Plan) {
    && q.source.None? && q.preds == [] && q.order == [] && q.unique.None?
    && q.limit.None? && q.offset.None? && q.fields == []
  }

  ghost predicate Finds(db: Database, q: Plan, rows: seq<AccountRow>) { Selected(db, q) == rows == RowsOf(db, q) }

  lemma Everyone(db: Database, q: Plan)
    requires AsksAll(q)
    ensures Finds(db, q, db.accounts)
  {
    FilterAll(All(q.preds), db.accounts);
    SortUnordered(db.accounts);
  }

  /** Elder w - 1 of the town and its kid. */
  lemma LastFamily(w: nat, rows: seq<AccountRow>)
    requires w > 0 && rows == Town(w).accounts
    ensures |rows| == 2 * w && rows[w - 1].id == w - 1 && IsLast(rows, w - 1)
    ensures rows[w - 1].proxyId == Some(w - 1) == rows[2 * w - 1].parentId
    ensures forall i | 0 <= i < w :: i in Map(IdOf(), rows)
  {
    forall i | 0 <= i < w ensures i in Map(IdOf(), rows) { assert Map(IdOf(), rows)[i] == i; }
  }

  /** Eager loading is not the naive join. */
  ghost predicate Differs(db: Database, q: Plan) {
    forall k {:trigger Open(Differences, k)} :: Open(Differences, k) ==> Batched(db, q) != Naive(db, q)
  }

  // ----- the edges to other tables -----

  lemma {:induction false} UsageCut(w: nat, q: Plan, asked: LeafQuery<UsageRow>)
    requires asked.preds == [] && asked.order == [] && !Unpaged(asked.limit, asked.offset)
    requires w == Before(asked.limit, asked.offset) + 1 && AsksAll(q) && q.withUsageLogs == Some(asked)
    ensures Differs(Town(w), q)
  {
    var rows := Town(w).accounts;
    Everyone(Town(w), q);
    LastFamily(w, rows);
    LogCut(w, asked, Map(IdOf(), rows));
    LogsDiffer(Town(w), q, rows, w - 1, asked);
  }

  lemma {:induction false} LogsDiffer(db: Database, q: Plan, rows: seq<AccountRow>, i: nat, asked: LeafQuery<UsageRow>)
    requires Finds(db, q, rows) && i < |rows| && rows[i].id == i && IsLast(rows, i) && q.withUsageLogs == Some(asked)
    requires Filter(UsageIs(i), LeafRows(db.usageLogs, LeafWhere(asked, UsageIn(Map(IdOf(), rows))))) == []
        <==> LeafRows(db.usageLogs, LeafWhere(asked, UsageIs(i))) != []
    ensures Differs(db, q)
  {
    LogsAt(db, q, i);
  }

  lemma LogCut(w: nat, asked: LeafQuery<UsageRow>, ids: seq<int>)
    requires asked.preds == [] && asked.order == [] && !Unpaged(asked.limit, asked.offset)
    requires w == Before(asked.limit, asked.offset) + 1 && forall i | 0 <= i < w :: i in ids
    ensures Filter(UsageIs(w - 1), LeafRows(Town(w).usageLogs, LeafWhere(asked, UsageIn(ids)))) == []
       <==> LeafRows(Town(w).usageLogs, LeafWhere(asked, UsageIs(w - 1))) != []
  {
    PartCut(Town(w).usageLogs, [], Town(w).usageLogs, [], asked, UsageIn(ids), UsageIs(w - 1));
  }

  lemma {:induction false} ProxyCut(w: nat, q: Plan, asked: LeafQuery<ProxyRow>)
    requires asked.preds == [] && asked.order == [] && !Unpaged(asked.limit, asked.offset)
    requires w == Before(asked.limit, asked.offset) + 1 && AsksAll(q) && q.withProxy == Some(asked)
    ensures Differs(Town(w), q)
  {
    var rows := Town(w).accounts;
    Everyone(Town(w), q);
    LastFamily(w, rows);
    ProxyKeys(w, rows);
    ProxyRowCut(w, asked, Keys(ProxyOf(), rows));
    ProxyDiffers(Town(w), q, rows, w - 1, asked);
  }

  lemma {:induction false} ProxyDiffers(db: Database, q: Plan, rows: seq<AccountRow>, i: nat, asked: LeafQuery<ProxyRow>)
    requires Finds(db, q, rows) && i < |rows| && rows[i].proxyId == Some(i) && q.withProxy == Some(asked)
    requires FindLast(ProxyIs(i), LeafRows(db.proxies, LeafWhere(asked, ProxyIn(Keys(ProxyOf(), rows))))).None?
        <==> LeafRows(db.proxies, LeafWhere(asked, ProxyIs(i))) != []
    ensures Differs(db, q)
  {
    ProxyAt(db, q, i, i);
  }

  lemma {:induction false} ProxyKeys(w: nat, rows: seq<AccountRow>)
    requires rows == Town(w).accounts
    ensures forall i | 0 <= i < w :: i in Keys(ProxyOf(), rows)
  {
    forall i | 0 <= i < w ensures i in Keys(ProxyOf(), rows) {
      assert rows[i] in rows;
      KeyIn(ProxyOf(), rows, rows[i]);
    }
  }

  lemma ProxyRowCut(w: nat, asked: LeafQuery<ProxyRow>, ks: seq<int>)
    requires asked.preds == [] && asked.order == [] && !Unpaged(asked.limit, asked.offset)
    requires w == Before(asked.limit, asked.offset) + 1 && forall i | 0 <= i < w :: i in ks
    ensures FindLast(ProxyIs(w - 1), LeafRows(Town(w).proxies, LeafWhere(asked, ProxyIn(ks)))).None?
       <==> LeafRows(Town(w).proxies, LeafWhere(asked, ProxyIs(w - 1))) != []
  {
    PartCut(Town(w).proxies, [], Town(w).proxies, [], asked, ProxyIn(ks), ProxyIs(w - 1));
    FindLastNone(ProxyIs(w - 1), LeafRows(Town(w).proxies, LeafWhere(asked, ProxyIn(ks))));
  }

  lemma {:induction false} FindLastNone<T>(p: T -> bool, s: seq<T>)
    ensures FindLast(p, s).None? <==> Filter(p, s) == []
  {
    if s != [] { FindLastNone(p, s[..|s| - 1]); }
  }

  lemma {:induction false} GroupsCut(w: nat, q: Plan, g: GroupsQuery)
    requires g.joins == [] && g.asked.preds == [] && g.asked.order == [ByGroupId()]
    requires !Unpaged(g.asked.limit, g.asked.offset) && w == Before(g.asked.limit, g.asked.offset) + 1
    requires AsksAll(q) && q.withGroups == Some(g)
    ensures Differs(Town(w), q)
  {
    var rows := Town(w).accounts;
    Everyone(Town(w), q);
    LastFamily(w, rows);
    JoinCut(w, g, Map(IdOf(), rows));
    GroupsDiffer(Town(w), q, rows, w - 1, g);
  }

  lemma {:induction false} GroupsDiffer(db: Database, q: Plan, rows: seq<AccountRow>, i: nat, g: GroupsQuery)
    requires Finds(db, q, rows) && i < |rows| && rows[i].id == i && IsLast(rows, i) && q.withGroups == Some(g)
    requires GroupsOf(JoinedRows(db.groupJoin, AddJoin(g, Map(IdOf(), rows))), i) == []
        <==> Map(GroupOf(), Distinct(GroupIdOf(), LeafRows(db.groupJoin, LeafWhere(Lifted(g.asked), JoinedIs(i))))) != []
    ensures Differs(db, q)
  {
    GroupsAt(db, q, i);
  }

  lemma JoinCut(w: nat, g: GroupsQuery, ids: seq<int>)
    requires g.joins == [] && g.asked.preds == [] && g.asked.order == [ByGroupId()]
    requires !Unpaged(g.asked.limit, g.asked.offset)
    requires w == Before(g.asked.limit, g.asked.offset) + 1 && forall i | 0 <= i < w :: i in ids
    ensures GroupsOf(JoinedRows(Town(w).groupJoin, AddJoin(g, ids)), w - 1) == []
       <==> Map(GroupOf(), Distinct(GroupIdOf(), LeafRows(Town(w).groupJoin, LeafWhere(Lifted(g.asked), JoinedIs(w - 1))))) != []
  {
    var table := Town(w).groupJoin;
    FirstJoin(table, g, ids);
    InGroupOrder(g.asked, table);
    PartCut(table, [], table, [], Lifted(g.asked), JoinedIn(ids), JoinedIs(w - 1));
    NoGroups(LeafRows(table, LeafWhere(Lifted(g.asked), JoinedIn(ids))), w - 1);
    SomeGroups(LeafRows(table, LeafWhere(Lifted(g.asked), JoinedIs(w - 1))));
  }

  lemma InGroupOrder(q: LeafQuery<GroupRow>, table: seq<JoinRow>)
    requires q.order == [ByGroupId()] && q.preds == [] && forall i | 0 <= i < |table| :: table[i].group.id == i
    ensures Sorted(Lifted(q).order, table) && Lifted(q).preds == []
  {
    forall i, j | 0 <= i < j < |table| ensures Le(Lifted(q).order, table[i], table[j]) {
      LiftedLe(q.order, q, table[i], table[j]);
    }
  }

  lemma {:induction false} NoGroups(joined: seq<JoinRow>, id: int)
    ensures GroupsOf(joined, id) == [] <==> Filter(JoinedIs(id), joined) == []
  {
    var d, p, own := Distinct(GroupIdOf(), joined), JoinsGroup(joined, id), Filter(JoinedIs(id), joined);
    DistinctCorrect(GroupIdOf(), joined);
    if own != [] {
      var j := own[0];
      assert j in own;
      FilterIn(JoinedIs(id), joined, j);
      var i :| 0 <= i < |d| && GroupIdOf()(d[i]) == GroupIdOf()(j);
      var k :| 0 <= k < |joined| && joined[k] == j;
      assert joined[k].accountId == id && joined[k].group.id == d[i].group.id;
      assert d[i] in d;
      FilterIn(p, d, d[i]);
    }
    if Filter(p, d) != [] {
      var j := Filter(p, d)[0];
      assert j in Filter(p, d);
      FilterIn(p, d, j);
      var k :| 0 <= k < |joined| && joined[k].accountId == id && joined[k].group.id == j.group.id;
      assert joined[k] in joined;
      FilterIn(JoinedIs(id), joined, joined[k]);
    }
  }

  lemma {:induction false} SomeGroups(js: seq<JoinRow>)
    ensures Map(GroupOf(), Distinct(GroupIdOf(), js)) == [] <==> js == []
  {
    DistinctCorrect(GroupIdOf(), js);
    if js != [] { assert js[0] in js; }
  }

  // ----- the edges to accounts -----

  lemma ElderCut(w: nat, asked: LeafQuery<AccountRow>, ks: seq<int>)
    requires asked.preds == [] && asked.order == [] && !Unpaged(asked.limit, asked.offset)
    requires w == Before(asked.limit, asked.offset) + 1 && forall k :: k in ks <==> 0 <= k < w
    ensures Filter(IdIs(w - 1), LeafRows(Town(w).accounts, LeafWhere(asked, IdIn(ks)))) == []
       <==> LeafRows(Town(w).accounts, LeafWhere(asked, IdIs(w - 1))) != []
  {
    PartCut(Town(w).accounts, [], Elders(w), Kids(w), asked, IdIn(ks), IdIs(w - 1));
  }

  lemma KidCut(w: nat, asked: LeafQuery<AccountRow>, ids: seq<int>)
    requires asked.preds == [] && asked.order == [] && !Unpaged(asked.limit, asked.offset)
    requires w == Before(asked.limit, asked.offset) + 1 && forall i | 0 <= i < w :: i in ids
    ensures Filter(ParentIs(w - 1), LeafRows(Town(w).accounts, LeafWhere(asked, ParentIn(ids)))) == []
       <==> LeafRows(Town(w).accounts, LeafWhere(asked, ParentIs(w - 1))) != []
  {
    PartCut(Town(w).accounts, Elders(w), Kids(w), [], asked, ParentIn(ids), ParentIs(w - 1));
  }

  /** A nested query without edges of its own selects like a query on another table. */
  lemma {:induction false} SelectedLeaf(db: Database, limit: Option<nat>, offset: Option<nat>, p: AccountRow -> bool, sub: Plan)
    requires sub == EmptyPlan.(limit := limit, offset := offset)
    ensures Selected(db, Where(sub, p)) == LeafRows(db.accounts, LeafWhere(LeafQuery([], [], limit, offset), p))
    ensures |Naive(db, Where(sub, p))| == |Selected(db, Where(sub, p))|
  {
  }

  lemma {:induction false} NoTrees(p: Tree -> bool, n: AccountRow -> bool, b: seq<Tree>, s: seq<AccountRow>)
    requires |b| == |s| && forall i | 0 <= i < |s| :: p(b[i]) == n(s[i])
    ensures Filter(p, b) == [] <==> Filter(n, s) == []
  {
    if s != [] { NoTrees(p, n, b[..|b| - 1], s[..|s| - 1]); }
  }

  /** The nodes of a query without selected columns carry its rows. */
  lemma {:induction false} WholeRows(db: Database, q: Plan)
    requires q.fields == []
    ensures |Batched(db, q)| == |Selected(db, q)|
    ensures forall i | 0 <= i < |Batched(db, q)| :: Batched(db, q)[i].row == Selected(db, q)[i]
  {
  }

  lemma {:induction false} NaiveAt(db: Database, q: Plan, i: nat)
    requires i < |Selected(db, q)|
    ensures |Naive(db, q)| == |Selected(db, q)|
    ensures q.withParent.Some? && Selected(db, q)[i].parentId.Some? ==>
              Naive(db, q)[i].parent == Last(Naive(db, Where(q.withParent.value, IdIs(Selected(db, q)[i].parentId.value))))
    ensures q.withChildren.Some? ==>
              Naive(db, q)[i].children
              == Naive(db, Where(KeepParentColumn(q.withChildren.value), ParentIs(Selected(db, q)[i].id)))
  {
  }

  lemma {:induction false} ParentCut(w: nat, q: Plan, sub: Plan)
    requires !Unpaged(sub.limit, sub.offset) && w == Before(sub.limit, sub.offset) + 1
    requires sub == EmptyPlan.(limit := sub.limit, offset := sub.offset) && AsksAll(q) && q.withParent == Some(sub)
    ensures Differs(Town(w), q)
  {
    var rows := Town(w).accounts;
    Everyone(Town(w), q);
    LastFamily(w, rows);
    ParentKeys(w, rows);
    ElderCut(w, LeafQuery([], [], sub.limit, sub.offset), Keys(ParentOf(), rows));
    ParentDiffers(Town(w), q, rows, 2 * w - 1, w - 1, sub, Keys(ParentOf(), rows));
  }

  lemma {:induction false} ParentDiffers(db: Database, q: Plan, rows: seq<AccountRow>, i: nat, k: int, sub: Plan, ks: seq<int>)
    requires Finds(db, q, rows) && i < |rows| && rows[i].parentId == Some(k) && q.withParent == Some(sub)
    requires sub == EmptyPlan.(limit := sub.limit, offset := sub.offset) && ks == Keys(ParentOf(), rows)
    requires var asked := LeafQuery([], [], sub.limit, sub.offset);
      Filter(IdIs(k), LeafRows(db.accounts, LeafWhere(asked, IdIn(ks)))) == []
      <==> LeafRows(db.accounts, LeafWhere(asked, IdIs(k))) != []
    ensures Differs(db, q)
  {
    ParentAt(db, q, i);
    NaiveAt(db, q, i);
    LeafTrees(db, sub, IdIn(ks), TreeIdIs(k), IdIs(k));
    LeafTrees(db, sub, IdIs(k), TreeIdIs(k), IdIs(k));
    FindLastNone(TreeIdIs(k), Batched(db, Where(sub, IdIn(ks))));
  }

  /** The nodes of a nested query without edges of its own are rows of the table. */
  lemma {:induction false} LeafTrees(db: Database, sub: Plan, p: AccountRow -> bool, t: Tree -> bool, n: AccountRow -> bool)
    requires sub == EmptyPlan.(limit := sub.limit, offset := sub.offset)
    requires forall x: Tree :: t(x) == n(x.row)
    ensures var asked := LeafWhere(LeafQuery([], [], sub.limit, sub.offset), p);
      && (Filter(t, Batched(db, Where(sub, p))) == [] <==> Filter(n, LeafRows(db.accounts, asked)) == [])
      && (Naive(db, Where(sub, p)) == [] <==> LeafRows(db.accounts, asked) == [])
  {
    SelectedLeaf(db, sub.limit, sub.offset, p, sub);
    WholeRows(db, Where(sub, p));
    NoTrees(t, n, Batched(db, Where(sub, p)), Selected(db, Where(sub, p)));
  }

  lemma {:induction false} ParentKeys(w: nat, rows: seq<AccountRow>)
    requires rows == Town(w).accounts
    ensures forall k :: k in Keys(ParentOf(), rows) <==> 0 <= k < w
  {
    forall k ensures k in Keys(ParentOf(), rows) <==> 0 <= k < w {
      if k in Keys(ParentOf(), rows) { var j := KeyHolder(ParentOf(), rows, k); }
      if 0 <= k < w {
        assert rows[w + k] in rows;
        KeyIn(ParentOf(), rows, rows[w + k]);
      }
    }
  }

  lemma {:induction false} KeyHolder(fk: AccountRow -> Option<int>, rows: seq<AccountRow>, k: int) returns (j: nat)
    requires k in Keys(fk, rows)
    ensures j < |rows| && fk(rows[j]) == Some(k)
  {
    j := |rows| - 1;
    if fk(rows[j]) != Some(k) { j := KeyHolder(fk, rows[..j], k); }
  }

  lemma {:induction false} ChildrenCut(w: nat, q: Plan, sub: Plan)
    requires !Unpaged(sub.limit, sub.offset) && w == Before(sub.limit, sub.offset) + 1
    requires sub == EmptyPlan.(limit := sub.limit, offset := sub.offset) && AsksAll(q) && q.withChildren == Some(sub)
    ensures Differs(Town(w), q)
  {
    var rows := Town(w).accounts;
    Everyone(Town(w), q);
    LastFamily(w, rows);
    KidCut(w, LeafQuery([], [], sub.limit, sub.offset), Map(IdOf(), rows));
    ChildrenDiffer(Town(w), q, rows, w - 1, sub, Map(IdOf(), rows));
  }

  lemma {:induction false} ChildrenDiffer(db: Database, q: Plan, rows: seq<AccountRow>, i: nat, sub: Plan, ids: seq<int>)
    requires Finds(db, q, rows) && i < |rows| && rows[i].id == i && IsLast(rows, i) && q.withChildren == Some(sub)
    requires sub == EmptyPlan.(limit := sub.limit, offset := sub.offset) && ids == Map(IdOf(), rows)
    requires var asked := LeafQuery([], [], sub.limit, sub.offset);
      Filter(ParentIs(i), LeafRows(db.accounts, LeafWhere(asked, ParentIn(ids)))) == []
      <==> LeafRows(db.accounts, LeafWhere(asked, ParentIs(i))) != []
    ensures Differs(db, q)
  {
    ChildrenAt(db, q, i);
    NaiveAt(db, q, i);
    assert KeepParentColumn(sub) == sub;
    LeafTrees(db, sub, ParentIn(ids), TreeParentIs(i), ParentIs(i));
    LeafTrees(db, sub, ParentIs(i), TreeParentIs(i), ParentIs(i));
  }

  // ----- all edges -----

  lemma {:induction false} SomeDiffers(e: Edge, limit: Option<nat>, offset: Option<nat>, w: nat)
    requires !Unpaged(limit, offset) && w == Before(limit, offset) + 1
    ensures Differs(Town(w), Paged(e, limit, offset))
  {
    var q := Paged(e, limit, offset);
    match e
    case Groups => GroupsCut(w, q, q.withGroups.value);
    case Proxy => ProxyCut(w, q, q.withProxy.value);
    case Parent => ParentCut(w, q, q.withParent.value);
    case Children => ChildrenCut(w, q, q.withChildren.value);
    case UsageLogs => UsageCut(w, q, q.withUsageLogs.value);
  }

  lemma TownValid(w: nat)
    ensures ValidDatabase(Town(w))
  {
  }

  /** The load of a limited or skipping sub-query, of whatever edge, can differ from the naive join. */
  lemma {:induction false} PagedDiffers(e: Edge, limit: Option<nat>, offset: Option<nat>)
    requires !Unpaged(limit, offset)
    ensures exists db :: ValidDatabase(db) && Batched(db, Paged(e, limit, offset)) != Naive(db, Paged(e, limit, offset))
  {
    var w := Before(limit, offset) + 1;
    SomeDiffers(e, limit, offset, w);
    TownValid(w);
    assert Open(Differences, 0);
  }

  /** A limit or offset on a sub-query keeps eager loading equal to the naive join on every database only when it is
      absent (Limit(0) and Offset(0) count as absent). */
  lemma {:induction false} PagingDecides(e: Edge, limit: Option<nat>, offset: Option<nat>)
    ensures (forall db | ValidDatabase(db) :: Batched(db, Paged(e, limit, offset)) == Naive(db, Paged(e, limit, offset)))
       <==> Unpaged(limit, offset)
  {
    if Unpaged(limit, offset) {
      forall db | ValidDatabase(db)
        ensures Batched(db, Paged(e, limit, offset)) == Naive(db, Paged(e, limit, offset))
      {
        UnpagedLevel(db, e, limit, offset);
        SelectedPlain(db, Paged(e, limit, offset));
        BatchedIsNaive(db, Paged(e, limit, offset));
      }
    } else {
      PagedDiffers(e, limit, offset);
    }
  }

  lemma {:induction false} UnpagedLevel(db: Database, e: Edge, limit: Option<nat>, offset: Option<nat>)
    requires Unpaged(limit, offset)
    ensures var q := Paged(e, limit, offset); PlainSub(q) && NestedUnpaged(q) && Unjoined(q) && GroupsOrdered(db, q)
  {
  }
}
