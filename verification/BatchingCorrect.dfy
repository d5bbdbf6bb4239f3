/** The batched loads compute the naive join. */
module BatchingCorrect {
  import opened Relational
  import opened EagerLoading

  // ----- narrowing a batched answer to one key -----

  predicate Unpaged(limit: Option<nat>, offset: Option<nat>) {
    SpecLimit(limit) == None && SpecOffset(offset) == 0
  }

  lemma {:induction false} SelectNarrow<R>(ps: seq<R -> bool>, wide: R -> bool, narrow: R -> bool, p: R -> bool, table: seq<R>)
    requires forall x | x in table :: narrow(x) == (p(x) && wide(x))
    ensures Filter(p, Filter(All(ps + [wide]), table)) == Filter(All(ps + [narrow]), table)
  {
    forall x | x in table ensures All(ps + [narrow])(x) == (p(x) && All(ps + [wide])(x)) {
      AllSnoc(ps, narrow, x);
      AllSnoc(ps, wide, x);
    }
    FilterFilter(p, All(ps + [wide]), All(ps + [narrow]), table);
  }

  lemma AllSnoc<R>(ps: seq<R -> bool>, p: R -> bool, x: R)
    ensures All(ps + [p])(x) == (All(ps)(x) && p(x))
  {
    if All(ps + [p])(x) {
      assert (ps + [p])[|ps|] == p;
      assert forall i | 0 <= i < |ps| :: (ps + [p])[i] == ps[i];
    }
  }

  /** The rows of one key within an unpaged batched answer are the answer for that key alone. */
  lemma LeafNarrow<R>(table: seq<R>, q: LeafQuery<R>, wide: R -> bool, narrow: R -> bool, p: R -> bool)
    requires Unpaged(q.limit, q.offset)
    requires forall x | x in table :: narrow(x) == (p(x) && wide(x))
    ensures Filter(p, LeafRows(table, LeafWhere(q, wide))) == LeafRows(table, LeafWhere(q, narrow))
  {
    SelectNarrow(q.preds, wide, narrow, p, table);
    SortFilter(p, q.order, Filter(All(q.preds + [wide]), table));
  }

  lemma {:induction false} SortKeysDiffer<R, K>(key: R -> K, ts: seq<OrderTerm<R>>, s: seq<R>)
    requires KeysDiffer(key, s)
    ensures KeysDiffer(key, Sort(ts, s))
  {
    if s != [] {
      var init, last := s[..|s| - 1], s[|s| - 1];
      SortKeysDiffer(key, ts, init);
      SortCorrect(ts, init);
      forall x | x in Sort(ts, init) ensures key(x) != key(last) {
        assert x in multiset(Sort(ts, init)) && x in multiset(init);
        var i :| 0 <= i < |init| && init[i] == x;
        assert s[i] == x;
      }
      InsertKeysDiffer(key, ts, Sort(ts, init), last);
    }
  }

  lemma {:induction false} InsertKeysDiffer<R, K>(key: R -> K, ts: seq<OrderTerm<R>>, s: seq<R>, x: R)
    requires KeysDiffer(key, s) && forall y | y in s :: key(y) != key(x)
    ensures KeysDiffer(key, Insert(ts, s, x))
  {
    if s != [] && !Le(ts, s[|s| - 1], x) {
      var init, last := s[..|s| - 1], s[|s| - 1];
      InsertKeysDiffer(key, ts, init, x);
      InsertIn(ts, init, x);
      var r := Insert(ts, init, x);
      forall i | 0 <= i < |r| ensures key(r[i]) != key(last) {
        assert r[i] in multiset(r);
        if r[i] != x {
          assert r[i] in multiset(init);
          var k :| 0 <= k < |init| && init[k] == r[i];
          assert s[k] == r[i];
        }
      }
    }
  }

  // ----- account sub-queries -----

  /** A sub-query as With* installs it (no traversal), without limit and offset. */
  predicate PlainSub(q: Plan) { q.source.None? && Unpaged(q.limit, q.offset) }

  ghost predicate GroupsDetermined(js: seq<JoinRow>) {
    forall a, b | a in js && b in js && a.group.id == b.group.id :: a.group == b.group
  }

  /** The order terms of a groups sub-query place distinct groups strictly apart. */
  ghost predicate OrdersGroups(ts: seq<OrderTerm<GroupRow>>, js: seq<JoinRow>) {
    forall a, b | a in js && b in js && Le(ts, a.group, b.group) && Le(ts, b.group, a.group) :: a.group.id == b.group.id
  }

  /** No query below q limits or skips rows. */
  ghost predicate NestedUnpaged(q: Plan)
    decreases Height(q)
  {
    && (q.withGroups.Some? ==> Unpaged(q.withGroups.value.asked.limit, q.withGroups.value.asked.offset))
    && (q.withProxy.Some? ==> Unpaged(q.withProxy.value.limit, q.withProxy.value.offset))
    && (q.withUsageLogs.Some? ==> Unpaged(q.withUsageLogs.value.limit, q.withUsageLogs.value.offset))
    && (q.withParent.Some? ==> PlainSub(q.withParent.value) && NestedUnpaged(q.withParent.value))
    && (q.withChildren.Some? ==> PlainSub(q.withChildren.value) && NestedUnpaged(q.withChildren.value))
  }

  /** Every groups sub-query below q orders the groups. */
  ghost predicate GroupsOrdered(db: Database, q: Plan)
    decreases Height(q)
  {
    && (q.withGroups.Some? ==> OrdersGroups(q.withGroups.value.asked.order, db.groupJoin))
    && (q.withParent.Some? ==> GroupsOrdered(db, q.withParent.value))
    && (q.withChildren.Some? ==> GroupsOrdered(db, q.withChildren.value))
  }

  /** Primary keys: account ids are unique, and a group id determines its group. */
  ghost predicate ValidDatabase(db: Database) {
    KeysDiffer(IdOf(), db.accounts) && GroupsDetermined(db.groupJoin)
  }

  /** A projected row keeps its id, and its foreign keys wherever a load reads them. */
  lemma ProjectKeepsKeys(q: Plan, r: AccountRow)
    ensures Project(Columns(q))(r).id == r.id
    ensures q.withProxy.Some? ==> Project(Columns(q))(r).proxyId == r.proxyId
    ensures q.withParent.Some? ==> Project(Columns(q))(r).parentId == r.parentId
    ensures Project(Columns(KeepParentColumn(q)))(r).parentId == r.parentId
  {
    var k := KeepParentColumn(q);
    if q.fields != [] {
      assert ([IdCol] + Filter(NotIdCol(), q.fields))[0] == IdCol;
      FilterIn(NotIdCol(), k.fields, ParentIdCol);
      var cs := [IdCol] + Filter(NotIdCol(), k.fields);
      assert forall c | c in Filter(NotIdCol(), k.fields) :: c in cs;
    }
  }

  lemma SelectedPlain(db: Database, q: Plan)
    requires PlainSub(q) && KeysDiffer(IdOf(), db.accounts)
    ensures Selected(db, q) == Sort(q.order, Filter(All(q.preds), db.accounts))
    ensures KeysDiffer(IdOf(), Selected(db, q))
  {
    var kept := Filter(All(q.preds), db.accounts);
    KeysDifferFilter(IdOf(), All(q.preds), db.accounts);
    forall i, j | 0 <= i < j < |kept| ensures Project(Columns(q))(kept[i]) != Project(Columns(q))(kept[j]) {
      assert IdOf()(kept[i]) != IdOf()(kept[j]);
      ProjectKeepsKeys(q, kept[i]);
      ProjectKeepsKeys(q, kept[j]);
    }
    DistinctIdentity(Project(Columns(q)), kept);
    SortKeysDiffer(IdOf(), q.order, kept);
  }

  lemma SelectedNarrow(db: Database, q: Plan, wide: AccountRow -> bool, narrow: AccountRow -> bool,
                       p: AccountRow -> bool)
    requires PlainSub(q) && KeysDiffer(IdOf(), db.accounts)
    requires forall x | x in db.accounts :: narrow(x) == (p(x) && wide(x))
    ensures Filter(p, Selected(db, Where(q, wide))) == Selected(db, Where(q, narrow))
  {
    SelectedPlain(db, Where(q, wide));
    SelectedPlain(db, Where(q, narrow));
    SelectNarrow(q.preds, wide, narrow, p, db.accounts);
    SortFilter(p, q.order, Filter(All(q.preds + [wide]), db.accounts));
  }

  /** One key of a batched account answer, spread, is the naive answer for that key. */
  lemma {:induction false} NaiveNarrow(db: Database, q: Plan, wide: AccountRow -> bool, narrow: AccountRow -> bool,
                    p: AccountRow -> bool, tp: Tree -> bool)
    requires PlainSub(q) && KeysDiffer(IdOf(), db.accounts)
    requires forall x | x in db.accounts :: narrow(x) == (p(x) && wide(x))
    requires forall x | x in db.accounts :: tp(NaiveNode(db, q, x)) == p(x)
    ensures Filter(tp, Naive(db, Where(q, wide))) == Naive(db, Where(q, narrow))
  {
    NaiveWhere(db, q, wide);
    NaiveWhere(db, q, narrow);
    SelectedFrom(db, Where(q, wide));
    FilterMap(tp, NodeOf(db, q), p, Selected(db, Where(q, wide)));
    SelectedNarrow(db, q, wide, narrow, p);
  }

  function NodeOf(db: Database, q: Plan): AccountRow -> Tree { (r: AccountRow) => NaiveNode(db, q, r) }

  lemma {:induction false} NaiveWhere(db: Database, q: Plan, p: AccountRow -> bool)
    ensures Naive(db, Where(q, p)) == Map(NodeOf(db, q), Selected(db, Where(q, p)))
  {
    var s := Selected(db, Where(q, p));
    forall i | 0 <= i < |s| ensures Naive(db, Where(q, p))[i] == NaiveNode(db, q, s[i]) { SameNode(db, q, p, s[i]); }
  }

  lemma {:induction false} SameNode(db: Database, q: Plan, p: AccountRow -> bool, r: AccountRow)
    ensures NaiveNode(db, Where(q, p), r) == NaiveNode(db, q, r)
  {
  }

  lemma SelectedFrom(db: Database, q: Plan)
    requires PlainSub(q) && KeysDiffer(IdOf(), db.accounts)
    ensures forall x | x in Selected(db, q) :: x in db.accounts
  {
    SelectedPlain(db, q);
    var kept := Filter(All(q.preds), db.accounts);
    SortCorrect(q.order, kept);
    forall x | x in Selected(db, q) ensures x in db.accounts {
      assert x in multiset(Sort(q.order, kept)) && x in multiset(kept);
      FilterIn(All(q.preds), db.accounts, x);
    }
  }

  lemma {:induction false} FindLastIsLast<T>(p: T -> bool, s: seq<T>)
    ensures FindLast(p, s) == Last(Filter(p, s))
  {
    if s != [] { FindLastIsLast(p, s[..|s| - 1]); }
  }

  lemma {:induction false} KeysComplete(fk: AccountRow -> Option<int>, rows: seq<AccountRow>)
    ensures forall k :: k in Keys(fk, rows) <==> exists r | r in rows :: fk(r) == Some(k)
  {
    if rows != [] {
      var init, last := rows[..|rows| - 1], rows[|rows| - 1];
      KeysComplete(fk, init);
      assert rows == init + [last];
      forall k ensures k in Keys(fk, rows) <==> exists r | r in rows :: fk(r) == Some(k) {
        if k in Keys(fk, init) {
          var r :| r in init && fk(r) == Some(k);
          assert r in rows;
        }
        if fk(last) == Some(k) { assert last in rows; }
      }
    }
  }

  // ----- groups -----

  /** Rows of one group are contiguous. */
  ghost predicate Clustered(js: seq<JoinRow>) {
    forall i, j, k | 0 <= i <= j <= k < |js| && js[i].group.id == js[k].group.id :: js[j].group.id == js[i].group.id
  }

  /** The first load of a groups sub-query selects with its join as with one more predicate. */
  lemma FirstJoin(table: seq<JoinRow>, q: GroupsQuery, ids: seq<int>)
    requires q.joins == []
    ensures JoinedRows(table, AddJoin(q, ids)) == LeafRows(table, LeafWhere(Lifted(q.asked), JoinedIn(ids)))
  {
    var ps, p := Lifted(q.asked).preds, JoinedIn(ids);
    assert AddJoin(q, ids).joins == [ids];
    forall x ensures All(ps + [p])(x) == (All(ps)(x) && p(x)) { AllSnoc(ps, p, x); }
    FilterFilter(All(ps), p, All(ps + [p]), table);
  }

  lemma {:induction false} LiftedLe(ts: seq<OrderTerm<GroupRow>>, q: LeafQuery<GroupRow>, a: JoinRow, b: JoinRow)
    requires q.order == ts
    ensures Le(Lifted(q).order, a, b) == Le(ts, a.group, b.group)
    decreases |ts|
  {
    if ts != [] {
      LiftedLe(ts[1..], q.(order := ts[1..]), a, b);
      assert Lifted(q).order[1..] == Lifted(q.(order := ts[1..])).order;
    }
  }

  lemma OrderClusters(db: Database, lq: LeafQuery<GroupRow>, p: JoinRow -> bool)
    requires GroupsDetermined(db.groupJoin) && Unpaged(lq.limit, lq.offset) && OrdersGroups(lq.order, db.groupJoin)
    ensures Clustered(LeafRows(db.groupJoin, LeafWhere(Lifted(lq), p)))
  {
    var q := LeafWhere(Lifted(lq), p);
    var kept := Filter(All(q.preds), db.groupJoin);
    LeafRowsIn(db.groupJoin, q);
    SortCorrect(q.order, kept);
    SortedClusters(lq, db.groupJoin, Sort(q.order, kept));
  }

  lemma LeafRowsIn<R>(table: seq<R>, q: LeafQuery<R>)
    ensures forall x | x in LeafRows(table, q) :: x in table && All(q.preds)(x)
  {
    var kept := Filter(All(q.preds), table);
    PageIn(SpecLimit(q.limit), SpecOffset(q.offset), Sort(q.order, kept));
    forall x | x in LeafRows(table, q) ensures x in table && All(q.preds)(x) {
      assert x in Sort(q.order, kept);
      SortInOne(q.order, kept, x);
      FilterIn(All(q.preds), table, x);
    }
  }

  lemma {:induction false} SortInOne<R>(ts: seq<OrderTerm<R>>, s: seq<R>, x: R)
    ensures x in Sort(ts, s) <==> x in s
  {
    SortCorrect(ts, s);
    assert x in Sort(ts, s) <==> x in multiset(Sort(ts, s));
    assert x in s <==> x in multiset(s);
  }

  lemma {:induction false} SortIn<R>(ts: seq<OrderTerm<R>>, s: seq<R>)
    ensures forall x :: x in Sort(ts, s) <==> x in s
  {
    forall x ensures x in Sort(ts, s) <==> x in s { SortInOne(ts, s, x); }
  }

  lemma SortedClusters(q: LeafQuery<GroupRow>, table: seq<JoinRow>, js: seq<JoinRow>)
    requires GroupsDetermined(table) && OrdersGroups(q.order, table)
    requires Sorted(Lifted(q).order, js) && forall x | x in js :: x in table
    ensures Clustered(js)
  {
    var ts := Lifted(q).order;
    forall i, j, k | 0 <= i < j < k < |js| && js[i].group.id == js[k].group.id
      ensures js[j].group.id == js[i].group.id
    {
      assert js[i] in js && js[j] in js && js[k] in js;
      assert Le(ts, js[i], js[j]) && Le(ts, js[j], js[k]);
      LiftedLe(q.order, q, js[i], js[j]);
      LiftedLe(q.order, q, js[j], js[k]);
    }
  }

  ghost predicate Mentions(js: seq<JoinRow>, g: int) {
    exists k | 0 <= k < |js| :: js[k].group.id == g
  }

  lemma {:induction false} DistinctMentions(js: seq<JoinRow>, g: int)
    ensures Mentions(Distinct(GroupIdOf(), js), g) <==> Mentions(js, g)
  {
    var d := Distinct(GroupIdOf(), js);
    DistinctCorrect(GroupIdOf(), js);
    if k :| 0 <= k < |js| && js[k].group.id == g {
      assert js[k] in js;
      var i :| 0 <= i < |d| && GroupIdOf()(d[i]) == GroupIdOf()(js[k]);
    }
    if i :| 0 <= i < |d| && d[i].group.id == g {
      assert d[i] in js;
      var k :| 0 <= k < |js| && js[k] == d[i];
    }
  }

  lemma {:induction false} DistinctSnoc(init: seq<JoinRow>, last: JoinRow)
    ensures Distinct(GroupIdOf(), init + [last])
         == if Mentions(init, last.group.id) then Distinct(GroupIdOf(), init) else Distinct(GroupIdOf(), init) + [last]
  {
    assert (init + [last])[..|init|] == init;
    DistinctMentions(init, last.group.id);
    var d := Distinct(GroupIdOf(), init);
    if i :| 0 <= i < |d| && d[i].group.id == last.group.id { assert GroupIdOf()(d[i]) == GroupIdOf()(last); }
  }

  /** On clustered rows the last group to appear is the group of the last row. */
  lemma {:induction false} DistinctLast(js: seq<JoinRow>)
    requires js != [] && Clustered(js)
    ensures Distinct(GroupIdOf(), js) != [] && Last(Distinct(GroupIdOf(), js)).value.group.id == js[|js| - 1].group.id
    decreases |js|
  {
    var init, last := js[..|js| - 1], js[|js| - 1];
    assert js == init + [last];
    DistinctSnoc(init, last);
    if k :| 0 <= k < |init| && init[k].group.id == last.group.id {
      assert js[k] == init[k] && js[|js| - 2] == init[|init| - 1];
      assert js[|js| - 2].group.id == last.group.id;
      ClusteredPrefix(init, last);
      DistinctLast(init);
    }
  }

  lemma ClusteredPrefix(init: seq<JoinRow>, last: JoinRow)
    requires Clustered(init + [last])
    ensures Clustered(init)
  {
    var js := init + [last];
    assert forall i | 0 <= i < |init| :: init[i] == js[i];
  }

  /** On clustered rows, de-duplicating the batch and narrowing to one account is
      narrowing to the account and de-duplicating. */
  lemma {:induction false} GroupsNarrow(js: seq<JoinRow>, id: int)
    requires Clustered(js) && GroupsDetermined(js)
    ensures GroupsOf(js, id) == Map(GroupOf(), Distinct(GroupIdOf(), Filter(JoinedIs(id), js)))
    decreases |js|
  {
    if js != [] {
      var init, last := js[..|js| - 1], js[|js| - 1];
      assert js == init + [last];
      assert forall x | x in init :: x in js;
      ClusteredPrefix(init, last);
      GroupsNarrow(init, id);
      GroupsStep(init, last, id);
    }
  }

  lemma JoinsGroupSnoc(init: seq<JoinRow>, last: JoinRow, id: int, x: JoinRow)
    ensures JoinsGroup(init + [last], id)(x)
        == (JoinsGroup(init, id)(x) || (last.accountId == id && last.group.id == x.group.id))
  {
    var js := init + [last];
    if JoinsGroup(init, id)(x) {
      var k :| 0 <= k < |init| && init[k].accountId == id && init[k].group.id == x.group.id;
      assert js[k] == init[k];
    }
    if last.accountId == id && last.group.id == x.group.id { assert js[|init|] == last; }
  }

  /** Account id is joined to group g. */
  ghost predicate Joined(js: seq<JoinRow>, id: int, g: int) {
    exists k | 0 <= k < |js| :: js[k].accountId == id && js[k].group.id == g
  }

  lemma {:induction false} NarrowMentions(js: seq<JoinRow>, id: int, g: int)
    ensures Mentions(Filter(JoinedIs(id), js), g) <==> Joined(js, id, g)
  {
    var f := Filter(JoinedIs(id), js);
    if k :| 0 <= k < |f| && f[k].group.id == g {
      FilterIn(JoinedIs(id), js, f[k]);
      var i :| 0 <= i < |js| && js[i] == f[k];
    }
    if i :| 0 <= i < |js| && js[i].accountId == id && js[i].group.id == g {
      FilterIn(JoinedIs(id), js, js[i]);
      var k :| 0 <= k < |f| && f[k] == js[i];
    }
  }

  lemma {:induction false} GroupsStep(init: seq<JoinRow>, last: JoinRow, id: int)
    requires Clustered(init + [last]) && GroupsDetermined(init + [last])
    requires GroupsOf(init, id) == Map(GroupOf(), Distinct(GroupIdOf(), Filter(JoinedIs(id), init)))
    ensures GroupsOf(init + [last], id) == Map(GroupOf(), Distinct(GroupIdOf(), Filter(JoinedIs(id), init + [last])))
  {
    var g := last.group.id;
    var f := Filter(JoinedIs(id), init);
    FilterSnoc(JoinedIs(id), init, last);
    NarrowMentions(init, id, g);
    DistinctSnoc(f, last);
    MapSnoc(GroupOf(), Distinct(GroupIdOf(), f), last);
    if last.accountId != id {
      OtherAccount(init, last, id);
    } else if !Mentions(init, g) {
      NewGroup(init, last, id);
    } else if Joined(init, id, g) {
      JoinedAgain(init, last, id);
    } else {
      LateJoin(init, last, id);
    }
  }

  lemma OtherAccount(init: seq<JoinRow>, last: JoinRow, id: int)
    requires last.accountId != id
    ensures GroupsOf(init + [last], id) == GroupsOf(init, id)
  {
    var js, d := init + [last], Distinct(GroupIdOf(), init);
    forall x ensures JoinsGroup(js, id)(x) == JoinsGroup(init, id)(x) { JoinsGroupSnoc(init, last, id, x); }
    FilterAgree(JoinsGroup(js, id), JoinsGroup(init, id), d);
    DistinctSnoc(init, last);
    FilterSnoc(JoinsGroup(js, id), d, last);
  }

  lemma NewGroup(init: seq<JoinRow>, last: JoinRow, id: int)
    requires last.accountId == id && !Mentions(init, last.group.id)
    ensures GroupsOf(init + [last], id) == GroupsOf(init, id) + [last.group]
  {
    var js, d := init + [last], Distinct(GroupIdOf(), init);
    DistinctSnoc(init, last);
    DistinctMentions(init, last.group.id);
    forall x | x in d ensures JoinsGroup(js, id)(x) == JoinsGroup(init, id)(x) {
      JoinsGroupSnoc(init, last, id, x);
      var i :| 0 <= i < |d| && d[i] == x;
    }
    FilterAgree(JoinsGroup(js, id), JoinsGroup(init, id), d);
    FilterSnoc(JoinsGroup(js, id), d, last);
    JoinsGroupSnoc(init, last, id, last);
    MapSnoc(GroupOf(), Filter(JoinsGroup(init, id), d), last);
  }

  lemma JoinedAgain(init: seq<JoinRow>, last: JoinRow, id: int)
    requires last.accountId == id && Joined(init, id, last.group.id)
    ensures GroupsOf(init + [last], id) == GroupsOf(init, id)
  {
    var js, d := init + [last], Distinct(GroupIdOf(), init);
    var k :| 0 <= k < |init| && init[k].accountId == id && init[k].group.id == last.group.id;
    DistinctSnoc(init, last);
    forall x ensures JoinsGroup(js, id)(x) == JoinsGroup(init, id)(x) { JoinsGroupSnoc(init, last, id, x); }
    FilterAgree(JoinsGroup(js, id), JoinsGroup(init, id), d);
  }

  /** The batch already holds the group when the account's first row for it arrives: on clustered rows the
      group is the last one of the batch, so both orders append it. */
  lemma LateJoin(init: seq<JoinRow>, last: JoinRow, id: int)
    requires Clustered(init + [last]) && GroupsDetermined(init + [last])
    requires Mentions(init, last.group.id) && last.accountId == id && !Joined(init, id, last.group.id)
    ensures GroupsOf(init + [last], id) == GroupsOf(init, id) + [last.group]
  {
    var js, g, d := init + [last], last.group.id, Distinct(GroupIdOf(), init);
    var p, p' := JoinsGroup(init, id), JoinsGroup(js, id);
    DistinctSnoc(init, last);
    LateGroupIsLast(init, last);
    var e, x := d[..|d| - 1], d[|d| - 1];
    forall y | y in e ensures p'(y) == p(y) { JoinsGroupSnoc(init, last, id, y); }
    FilterAgree(p', p, e);
    assert d == e + [x];
    FilterSnoc(p, e, x);
    FilterSnoc(p', e, x);
    JoinsGroupSnoc(init, last, id, x);
    MapSnoc(GroupOf(), Filter(p, e), x);
  }

  lemma {:induction false} LateGroupIsLast(init: seq<JoinRow>, last: JoinRow)
    requires Clustered(init + [last]) && GroupsDetermined(init + [last])
    requires Mentions(init, last.group.id)
    ensures var d := Distinct(GroupIdOf(), init);
      && d != []
      && d[|d| - 1].group == last.group
      && forall y | y in d[..|d| - 1] :: y.group.id != last.group.id
  {
    var js, d := init + [last], Distinct(GroupIdOf(), init);
    ClusteredPrefix(init, last);
    assert init[|init| - 1].group.id == last.group.id by {
      var k :| 0 <= k < |init| && init[k].group.id == last.group.id;
      assert js[k] == init[k] && js[|js| - 2] == init[|init| - 1] && js[|js| - 1] == last;
    }
    DistinctLast(init);
    DistinctCorrect(GroupIdOf(), init);
    assert d[|d| - 1] in d;
    assert d[|d| - 1] in js && last in js;
    forall y | y in d[..|d| - 1] ensures y.group.id != last.group.id {
      var i :| 0 <= i < |d| - 1 && d[i] == y;
      assert GroupIdOf()(d[i]) != GroupIdOf()(d[|d| - 1]);
    }
  }

  // ----- trees up to the order of their groups -----

  function GroupKey(): GroupRow -> int { (g: GroupRow) => g.id }

  /** The same groups, each once. */
  ghost predicate SameGroups(gs: seq<GroupRow>, hs: seq<GroupRow>) {
    multiset(gs) == multiset(hs) && KeysDiffer(GroupKey(), gs) && KeysDiffer(GroupKey(), hs)
  }

  /** t and u agree at every depth; exactly, or up to the order in which groups are listed. */
  ghost predicate Alike(exact: bool, t: Tree, u: Tree)
    decreases t
  {
    && t.row == u.row && t.loaded == u.loaded && t.proxy == u.proxy && t.usageLogs == u.usageLogs
    && (if exact then t.groups == u.groups else SameGroups(t.groups, u.groups))
    && (t.parent.Some? <==> u.parent.Some?)
    && (t.parent.Some? ==> Alike(exact, t.parent.value, u.parent.value))
    && |t.children| == |u.children|
    && forall k | 0 <= k < |t.children| :: Alike(exact, t.children[k], u.children[k])
  }

  ghost predicate AllAlike(exact: bool, ts: seq<Tree>, us: seq<Tree>) {
    |ts| == |us| && forall i | 0 <= i < |ts| :: Alike(exact, ts[i], us[i])
  }

  lemma {:induction false} AlikeIsEqual(t: Tree, u: Tree)
    requires Alike(true, t, u)
    ensures t == u
    decreases t
  {
    if t.parent.Some? { AlikeIsEqual(t.parent.value, u.parent.value); }
    forall k | 0 <= k < |t.children| ensures t.children[k] == u.children[k] { AlikeIsEqual(t.children[k], u.children[k]); }
    assert t.children == u.children;
  }

  /** A test that looks at the row alone keeps alike lists alike. */
  ghost predicate OnRow(p: Tree -> bool) { forall t: Tree, u: Tree | t.row == u.row :: p(t) == p(u) }

  lemma {:induction false} FilterAlike(exact: bool, p: Tree -> bool, ts: seq<Tree>, us: seq<Tree>)
    requires OnRow(p) && AllAlike(exact, ts, us)
    ensures AllAlike(exact, Filter(p, ts), Filter(p, us))
    decreases |ts|
  {
    if ts != [] { FilterAlike(exact, p, ts[..|ts| - 1], us[..|us| - 1]); }
  }

  lemma {:induction false} FindLastAlike(exact: bool, p: Tree -> bool, ts: seq<Tree>, us: seq<Tree>)
    requires OnRow(p) && AllAlike(exact, ts, us)
    ensures var t, u := FindLast(p, ts), FindLast(p, us);
      (t.Some? <==> u.Some?) && (t.Some? ==> Alike(exact, t.value, u.value))
  {
    FilterAlike(exact, p, ts, us);
    FindLastIsLast(p, ts);
    FindLastIsLast(p, us);
  }

  lemma {:induction false} OnceEach<R, K>(key: R -> K, s: seq<R>)
    requires KeysDiffer(key, s)
    ensures forall x :: multiset(s)[x] == if x in s then 1 else 0
  {
    if s != [] {
      var init, last := s[..|s| - 1], s[|s| - 1];
      OnceEach(key, init);
      assert s == init + [last];
      assert last !in init;
    }
  }

  /** Group g is joined to account id by some row. */
  ghost predicate Gives(js: seq<JoinRow>, id: int, g: GroupRow) {
    exists j :: j in js && j.accountId == id && j.group == g
  }

  lemma GroupsFromBatch(js: seq<JoinRow>, id: int)
    requires GroupsDetermined(js)
    ensures KeysDiffer(GroupKey(), GroupsOf(js, id))
    ensures forall g :: g in GroupsOf(js, id) <==> Gives(js, id, g)
  {
    var d := Distinct(GroupIdOf(), js);
    var f := Filter(JoinsGroup(js, id), d);
    DistinctCorrect(GroupIdOf(), js);
    KeysDifferFilter(GroupIdOf(), JoinsGroup(js, id), d);
    forall i, j | 0 <= i < j < |f| ensures f[i].group.id != f[j].group.id { assert GroupIdOf()(f[i]) != GroupIdOf()(f[j]); }
    forall g ensures g in GroupsOf(js, id) <==> Gives(js, id, g) {
      if g in GroupsOf(js, id) { GivenByBatch(js, id, g); }
      if Gives(js, id, g) { BatchGives(js, id, g); }
    }
  }

  lemma GivenByBatch(js: seq<JoinRow>, id: int, g: GroupRow)
    requires GroupsDetermined(js) && g in GroupsOf(js, id)
    ensures Gives(js, id, g)
  {
    var d := Distinct(GroupIdOf(), js);
    var f := Filter(JoinsGroup(js, id), d);
    DistinctCorrect(GroupIdOf(), js);
    var i :| 0 <= i < |f| && f[i].group == g;
    FilterIn(JoinsGroup(js, id), d, f[i]);
    var k :| 0 <= k < |js| && js[k].accountId == id && js[k].group.id == f[i].group.id;
    assert js[k] in js && js[k].group == g;
  }

  lemma BatchGives(js: seq<JoinRow>, id: int, g: GroupRow)
    requires GroupsDetermined(js) && Gives(js, id, g)
    ensures g in GroupsOf(js, id)
  {
    var d := Distinct(GroupIdOf(), js);
    var f := Filter(JoinsGroup(js, id), d);
    DistinctCorrect(GroupIdOf(), js);
    var j :| j in js && j.accountId == id && j.group == g;
    var k :| 0 <= k < |js| && js[k] == j;
    var m :| 0 <= m < |d| && GroupIdOf()(d[m]) == GroupIdOf()(j);
    FilterIn(JoinsGroup(js, id), d, d[m]);
    var i :| 0 <= i < |f| && f[i] == d[m];
    assert GroupsOf(js, id)[i] == g;
  }

  lemma {:induction false} GroupsAlone(js: seq<JoinRow>, id: int)
    requires GroupsDetermined(js)
    ensures var gs := Map(GroupOf(), Distinct(GroupIdOf(), Filter(JoinedIs(id), js)));
      KeysDiffer(GroupKey(), gs) && forall g :: g in gs <==> Gives(js, id, g)
  {
    var f := Filter(JoinedIs(id), js);
    var d := Distinct(GroupIdOf(), f);
    var gs := Map(GroupOf(), d);
    DistinctCorrect(GroupIdOf(), f);
    forall i, j | 0 <= i < j < |d| ensures d[i].group.id != d[j].group.id { assert GroupIdOf()(d[i]) != GroupIdOf()(d[j]); }
    forall g ensures g in gs <==> Gives(js, id, g) {
      if g in gs {
        var i :| 0 <= i < |d| && d[i].group == g;
        assert d[i] in d;
        FilterIn(JoinedIs(id), js, d[i]);
      }
      if j :| j in js && j.accountId == id && j.group == g {
        FilterIn(JoinedIs(id), js, j);
        var m :| 0 <= m < |d| && GroupIdOf()(d[m]) == GroupIdOf()(j);
        assert d[m] in d;
        FilterIn(JoinedIs(id), js, d[m]);
        assert gs[m] == g;
      }
    }
  }

  lemma NaiveGroups(db: Database, lq: LeafQuery<GroupRow>, ids: seq<int>, id: int, exact: bool)
    requires GroupsDetermined(db.groupJoin) && Unpaged(lq.limit, lq.offset) && id in ids
    requires exact ==> OrdersGroups(lq.order, db.groupJoin)
    ensures var batch := GroupsOf(LeafRows(db.groupJoin, LeafWhere(Lifted(lq), JoinedIn(ids))), id);
      var alone := Map(GroupOf(), Distinct(GroupIdOf(), LeafRows(db.groupJoin, LeafWhere(Lifted(lq), JoinedIs(id)))));
      SameGroups(batch, alone) && (exact ==> batch == alone)
  {
    var js := LeafRows(db.groupJoin, LeafWhere(Lifted(lq), JoinedIn(ids)));
    LeafRowsIn(db.groupJoin, LeafWhere(Lifted(lq), JoinedIn(ids)));
    LeafNarrow(db.groupJoin, Lifted(lq), JoinedIn(ids), JoinedIs(id), JoinedIs(id));
    GroupsFromBatch(js, id);
    GroupsAlone(js, id);
    var alone := Map(GroupOf(), Distinct(GroupIdOf(), Filter(JoinedIs(id), js)));
    OnceEach(GroupKey(), GroupsOf(js, id));
    OnceEach(GroupKey(), alone);
    assert multiset(GroupsOf(js, id)) == multiset(alone);
    if exact {
      OrderClusters(db, lq, JoinedIn(ids));
      GroupsNarrow(js, id);
    }
  }

  // ----- the theorem -----

  /** The parent the batched answer holds under k is the one a lookup of k alone finds. */
  lemma {:induction false} NaiveParent(db: Database, pq: Plan, ks: seq<int>, k: int)
    requires ValidDatabase(db) && PlainSub(pq) && k in ks
    ensures FindLast(TreeIdIs(k), Naive(db, Where(pq, IdIn(ks)))) == Last(Naive(db, Where(pq, IdIs(k))))
  {
    forall x ensures TreeIdIs(k)(NaiveNode(db, pq, x)) == IdIs(k)(x) { ProjectKeepsKeys(pq, x); }
    NaiveNarrow(db, pq, IdIn(ks), IdIs(k), IdIs(k), TreeIdIs(k));
    FindLastIsLast(TreeIdIs(k), Naive(db, Where(pq, IdIn(ks))));
  }

  lemma {:induction false} NaiveChildren(db: Database, cq: Plan, ids: seq<int>, id: int)
    requires ValidDatabase(db) && PlainSub(cq) && id in ids
    ensures Filter(TreeParentIs(id), Naive(db, Where(KeepParentColumn(cq), ParentIn(ids))))
         == Naive(db, Where(KeepParentColumn(cq), ParentIs(id)))
  {
    var q := KeepParentColumn(cq);
    forall x ensures TreeParentIs(id)(NaiveNode(db, q, x)) == ParentIs(id)(x) { ProjectKeepsKeys(cq, x); }
    NaiveNarrow(db, q, ParentIn(ids), ParentIs(id), ParentIs(id), TreeParentIs(id));
  }

  lemma NaiveProxy(db: Database, lq: LeafQuery<ProxyRow>, ks: seq<int>, k: int)
    requires Unpaged(lq.limit, lq.offset) && k in ks
    ensures FindLast(ProxyIs(k), LeafRows(db.proxies, LeafWhere(lq, ProxyIn(ks))))
         == Last(LeafRows(db.proxies, LeafWhere(lq, ProxyIs(k))))
  {
    FindLastIsLast(ProxyIs(k), LeafRows(db.proxies, LeafWhere(lq, ProxyIn(ks))));
    LeafNarrow(db.proxies, lq, ProxyIn(ks), ProxyIs(k), ProxyIs(k));
  }

  /** What a node keeps of its naive self when a later node of the result repeats its id: the maps from
      an id to its node hold the later one, so the edges spread by id are left empty. */
  function Shadowed(t: Tree): Tree { t.(groups := [], children := [], usageLogs := []) }

  /** Whether node i of a result is what the naive join gives, up to what a later node of the same id takes from it. */
  ghost predicate IsExpected(exact: bool, t: Tree, naive: Tree, last: bool) {
    Alike(exact, t, if last then naive else Shadowed(naive))
  }

  lemma {:induction false} BatchedLike(db: Database, q: Plan, exact: bool)
    requires ValidDatabase(db) && NestedUnpaged(q) && Unjoined(q) && (exact ==> GroupsOrdered(db, q))
    ensures |Batched(db, q)| == |Naive(db, q)| == |RowsOf(db, q)|
    ensures forall i | 0 <= i < |Batched(db, q)| ::
      IsExpected(exact, Batched(db, q)[i], Naive(db, q)[i], IsLast(RowsOf(db, q), i))
    decreases Height(q), 1
  {
    var s, rows := Selected(db, q), RowsOf(db, q);
    var ns := Batch(db, q, rows);
    SubQueriesLike(db, q, rows, exact);
    forall i | 0 <= i < |rows| ensures IsExpected(exact, Spread(q, rows, ns, i), NaiveNode(db, q, s[i]), IsLast(rows, i)) {
      NodeKeys(q, s, rows, i);
      SpreadLike(db, q, s[i], rows, ns, i, exact);
    }
  }

  /** The batched answers of the account edges are those of the naive join. */
  ghost predicate AccountsLike(db: Database, q: Plan, rows: seq<AccountRow>, ns: Neighbors, exact: bool) {
    && (q.withParent.Some? ==>
          AllAlike(exact, ns.parents, Naive(db, Where(q.withParent.value, IdIn(Keys(ParentOf(), rows))))))
    && (q.withChildren.Some? ==>
          AllAlike(exact, ns.children,
                   Naive(db, Where(KeepParentColumn(q.withChildren.value), ParentIn(Map(IdOf(), rows))))))
  }

  lemma {:induction false} SubQueriesLike(db: Database, q: Plan, rows: seq<AccountRow>, exact: bool)
    requires ValidDatabase(db) && NestedUnpaged(q) && Unjoined(q) && (exact ==> GroupsOrdered(db, q))
    ensures AccountsLike(db, q, rows, Batch(db, q, rows), exact)
    decreases Height(q), 0
  {
    if q.withParent.Some? {
      var pq := Where(q.withParent.value, IdIn(Keys(ParentOf(), rows)));
      SelectedPlain(db, pq);
      DistinctLike(db, pq, exact);
    }
    if q.withChildren.Some? {
      var cq := Where(KeepParentColumn(q.withChildren.value), ParentIn(Map(IdOf(), rows)));
      SelectedPlain(db, cq);
      DistinctLike(db, cq, exact);
    }
  }

  lemma {:induction false} DistinctLike(db: Database, q: Plan, exact: bool)
    requires ValidDatabase(db) && NestedUnpaged(q) && Unjoined(q) && (exact ==> GroupsOrdered(db, q))
    requires KeysDiffer(IdOf(), Selected(db, q))
    ensures AllAlike(exact, Batched(db, q), Naive(db, q))
    decreases Height(q), 2
  {
    BatchedLike(db, q, exact);
    LastIffDistinct(q, Selected(db, q), RowsOf(db, q));
  }

  /** Eager loading against the naive join, for every result: a node whose id no later node repeats carries the
      neighbours that a lookup for this node alone finds, at every depth of nesting, in the order of the sub-query;
      its groups too, each once, and in that order when the groups sub-queries order the groups.  A shadowed node
      carries its proxy and its parent only. */
  lemma {:induction false} BatchedExactly(db: Database, q: Plan)
    requires ValidDatabase(db) && NestedUnpaged(q) && Unjoined(q)
    ensures |Batched(db, q)| == |Naive(db, q)| == |RowsOf(db, q)|
    ensures forall i | 0 <= i < |Batched(db, q)| ::
      Alike(false, Batched(db, q)[i], if IsLast(RowsOf(db, q), i) then Naive(db, q)[i] else Shadowed(Naive(db, q)[i]))
    ensures GroupsOrdered(db, q) ==> forall i | 0 <= i < |Batched(db, q)| ::
      Batched(db, q)[i] == if IsLast(RowsOf(db, q), i) then Naive(db, q)[i] else Shadowed(Naive(db, q)[i])
  {
    BatchedLike(db, q, false);
    var b, n, rows := Batched(db, q), Naive(db, q), RowsOf(db, q);
    Unwrap(b, n, rows, false);
    if GroupsOrdered(db, q) {
      BatchedLike(db, q, true);
      Unwrap(b, n, rows, true);
    }
  }

  lemma Unwrap(b: seq<Tree>, n: seq<Tree>, rows: seq<AccountRow>, exact: bool)
    requires |b| == |n| == |rows| && forall i | 0 <= i < |b| :: IsExpected(exact, b[i], n[i], IsLast(rows, i))
    ensures forall i | 0 <= i < |b| :: Alike(exact, b[i], if IsLast(rows, i) then n[i] else Shadowed(n[i]))
    ensures exact ==> forall i | 0 <= i < |b| :: b[i] == if IsLast(rows, i) then n[i] else Shadowed(n[i])
  {
    if exact {
      forall i | 0 <= i < |b| ensures b[i] == if IsLast(rows, i) then n[i] else Shadowed(n[i]) {
        AlikeIsEqual(b[i], if IsLast(rows, i) then n[i] else Shadowed(n[i]));
      }
    }
  }

  /** Eager loading is the naive join on every result that repeats no id. */
  lemma {:induction false} BatchedIsNaive(db: Database, q: Plan)
    requires ValidDatabase(db) && NestedUnpaged(q) && Unjoined(q)
    requires KeysDiffer(IdOf(), Selected(db, q))
    ensures AllAlike(false, Batched(db, q), Naive(db, q))
    ensures GroupsOrdered(db, q) ==> Batched(db, q) == Naive(db, q)
  {
    BatchedExactly(db, q);
    LastIffDistinct(q, Selected(db, q), RowsOf(db, q));
  }

  /** The naive node has nothing that the maps from an id to its node could take from it. */
  ghost predicate NothingToLose(t: Tree) { t.groups == [] && t.children == [] && t.usageLogs == [] }

  /** In general it is the naive join just when the shadowed nodes had nothing to lose. */
  lemma {:induction false} BatchedIsNaiveIff(db: Database, q: Plan)
    requires ValidDatabase(db) && NestedUnpaged(q) && Unjoined(q)
    ensures AllAlike(false, Batched(db, q), Naive(db, q)) <==>
      forall i | 0 <= i < |RowsOf(db, q)| && !IsLast(RowsOf(db, q), i) :: NothingToLose(NaiveNode(db, q, Selected(db, q)[i]))
    ensures GroupsOrdered(db, q) ==> (Batched(db, q) == Naive(db, q) <==> AllAlike(false, Batched(db, q), Naive(db, q)))
  {
    BatchedExactly(db, q);
    NaiveNodes(db, q);
    ShadowsDecide(Batched(db, q), Naive(db, q), RowsOf(db, q));
  }

  function Traversal(a: AccountRow): Plan {
    EmptyPlan.(source := Some([a, a]), unique := Some(false), withUsageLogs := Some(LeafQuery([], [], None, None)))
  }

  /** A traversal that reaches one account twice and is not made unique: the first of its nodes has no usage logs. */
  lemma {:induction false} RepeatedId(db: Database, a: AccountRow, u: UsageRow)
    requires u.accountId == a.id && db == Database([a], [], [u], [])
    ensures |Batched(db, Traversal(a))| == |Naive(db, Traversal(a))| == 2
    ensures Batched(db, Traversal(a))[0].usageLogs == [] && Naive(db, Traversal(a))[0].usageLogs == [u]
  {
    var q := Traversal(a);
    FilterAll(All(q.preds), [a, a]);
    SortUnordered([a, a]);
    assert Selected(db, q) == [a, a] == RowsOf(db, q);
    OneLog(u);
    assert !IsLast(RowsOf(db, q), 0);
    LogsAt(db, q, 0);
  }

  lemma {:induction false} LogsAt(db: Database, q: Plan, i: nat)
    requires q.withUsageLogs.Some? && i < |RowsOf(db, q)|
    ensures |Batched(db, q)| == |Naive(db, q)| == |RowsOf(db, q)| == |Selected(db, q)|
    ensures Batched(db, q)[i].usageLogs
         == if IsLast(RowsOf(db, q), i)
            then Filter(UsageIs(RowsOf(db, q)[i].id),
                        LeafRows(db.usageLogs, LeafWhere(q.withUsageLogs.value, UsageIn(Map(IdOf(), RowsOf(db, q))))))
            else []
    ensures Naive(db, q)[i].usageLogs
         == LeafRows(db.usageLogs, LeafWhere(q.withUsageLogs.value, UsageIs(Selected(db, q)[i].id)))
  {
  }

  lemma {:induction false} ProxyAt(db: Database, q: Plan, i: nat, k: int)
    requires q.withProxy.Some? && i < |RowsOf(db, q)| && RowsOf(db, q)[i].proxyId == Some(k)
    ensures |Batched(db, q)| == |Naive(db, q)| == |RowsOf(db, q)| == |Selected(db, q)|
    ensures Batched(db, q)[i].proxy
         == FindLast(ProxyIs(k), LeafRows(db.proxies, LeafWhere(q.withProxy.value, ProxyIn(Keys(ProxyOf(), RowsOf(db, q))))))
    ensures Selected(db, q)[i].proxyId == Some(k) ==>
              Naive(db, q)[i].proxy == Last(LeafRows(db.proxies, LeafWhere(q.withProxy.value, ProxyIs(k))))
  {
  }

  lemma OneLog(u: UsageRow)
    ensures LeafRows([u], LeafWhere(LeafQuery([], [], None, None), UsageIs(u.accountId))) == [u]
  {
    AllSnoc([], UsageIs(u.accountId), u);
    FilterAll(All([] + [UsageIs(u.accountId)]), [u]);
    SortUnordered([u]);
  }

  lemma {:induction false} NaiveNodes(db: Database, q: Plan)
    ensures |Naive(db, q)| == |Selected(db, q)| == |RowsOf(db, q)|
    ensures forall i | 0 <= i < |Naive(db, q)| :: Naive(db, q)[i] == NaiveNode(db, q, Selected(db, q)[i])
  {
  }

  lemma ShadowsDecide(b: seq<Tree>, n: seq<Tree>, rows: seq<AccountRow>)
    requires |b| == |n| == |rows|
    requires forall i | 0 <= i < |b| :: Alike(false, b[i], if IsLast(rows, i) then n[i] else Shadowed(n[i]))
    ensures AllAlike(false, b, n) <==> forall i | 0 <= i < |rows| && !IsLast(rows, i) :: NothingToLose(n[i])
    ensures (forall i | 0 <= i < |b| :: b[i] == if IsLast(rows, i) then n[i] else Shadowed(n[i])) ==>
              (b == n <==> AllAlike(false, b, n))
  {
    if AllAlike(false, b, n) {
      forall i | 0 <= i < |rows| && !IsLast(rows, i) ensures NothingToLose(n[i]) {
        assert Alike(false, b[i], n[i]) && Alike(false, b[i], Shadowed(n[i]));
        assert |multiset(n[i].groups)| == |multiset(b[i].groups)| == 0;
      }
    }
    if forall i | 0 <= i < |rows| && !IsLast(rows, i) :: NothingToLose(n[i]) {
      forall i | 0 <= i < |b| ensures Alike(false, b[i], n[i]) {
        if !IsLast(rows, i) { assert Shadowed(n[i]) == n[i]; }
      }
    }
    if (forall i | 0 <= i < |b| :: b[i] == if IsLast(rows, i) then n[i] else Shadowed(n[i])) && b == n {
      forall i | 0 <= i < |b| && !IsLast(rows, i) ensures NothingToLose(n[i]) { assert n[i] == Shadowed(n[i]); }
    }
  }

  lemma LastIffDistinct(q: Plan, s: seq<AccountRow>, rows: seq<AccountRow>)
    requires KeysDiffer(IdOf(), s) && rows == Map(Project(Columns(q)), s)
    ensures forall i | 0 <= i < |rows| :: IsLast(rows, i)
  {
    forall i, j | 0 <= i < j < |rows| ensures rows[j].id != rows[i].id {
      ProjectKeepsKeys(q, s[i]);
      ProjectKeepsKeys(q, s[j]);
      assert IdOf()(s[i]) != IdOf()(s[j]);
    }
  }

  /** What NestedUnpaged, Unjoined and, if exact, GroupsOrdered say of the sub-queries of q itself. */
  ghost predicate LevelUnpaged(db: Database, q: Plan, exact: bool) {
    && (q.withGroups.Some? ==>
          && Unpaged(q.withGroups.value.asked.limit, q.withGroups.value.asked.offset) && q.withGroups.value.joins == []
          && (exact ==> OrdersGroups(q.withGroups.value.asked.order, db.groupJoin)))
    && (q.withProxy.Some? ==> Unpaged(q.withProxy.value.limit, q.withProxy.value.offset))
    && (q.withUsageLogs.Some? ==> Unpaged(q.withUsageLogs.value.limit, q.withUsageLogs.value.offset))
    && (q.withParent.Some? ==> PlainSub(q.withParent.value))
    && (q.withChildren.Some? ==> PlainSub(q.withChildren.value))
  }

  /** Node i of the result carries row s, and the batch holds it under each of its keys. */
  ghost predicate Represents(q: Plan, s: AccountRow, rows: seq<AccountRow>, i: nat) {
    && i < |rows|
    && rows[i] == Project(Columns(q))(s)
    && rows[i].id == s.id && s.id in Map(IdOf(), rows)
    && (q.withProxy.Some? ==> rows[i].proxyId == s.proxyId)
    && (q.withParent.Some? ==> rows[i].parentId == s.parentId)
    && (rows[i].proxyId.Some? ==> rows[i].proxyId.value in Keys(ProxyOf(), rows))
    && (rows[i].parentId.Some? ==> rows[i].parentId.value in Keys(ParentOf(), rows))
  }

  lemma NodeKeys(q: Plan, s: seq<AccountRow>, rows: seq<AccountRow>, i: nat)
    requires rows == Map(Project(Columns(q)), s) && i < |rows|
    ensures Represents(q, s[i], rows, i)
  {
    ProjectKeepsKeys(q, s[i]);
    assert Map(IdOf(), rows)[i] == s[i].id;
    assert rows[i] in rows;
    if rows[i].proxyId.Some? { KeyIn(ProxyOf(), rows, rows[i]); }
    if rows[i].parentId.Some? { KeyIn(ParentOf(), rows, rows[i]); }
  }

  lemma {:induction false} KeyIn(fk: AccountRow -> Option<int>, rows: seq<AccountRow>, r: AccountRow)
    requires r in rows && fk(r).Some?
    ensures fk(r).value in Keys(fk, rows)
  {
    KeysComplete(fk, rows);
    var k := fk(r).value;
    assert r in rows && fk(r) == Some(k);
  }

  lemma {:induction false} ParentLike(db: Database, q: Plan, s: AccountRow, rows: seq<AccountRow>, ns: Neighbors,
                                      i: nat, exact: bool)
    requires ValidDatabase(db) && LevelUnpaged(db, q, exact) && Represents(q, s, rows, i)
    requires AccountsLike(db, q, rows, ns, exact) && (q.withParent.None? ==> ns.parents == [])
    ensures var p, n := Spread(q, rows, ns, i).parent, NaiveNode(db, q, s).parent;
      (p.Some? <==> n.Some?) && (p.Some? ==> Alike(exact, p.value, n.value))
  {
    if q.withParent.Some? && s.parentId.Some? {
      FoundAlike(db, q.withParent.value, Keys(ParentOf(), rows), s.parentId.value, ns.parents, exact);
    }
  }

  lemma {:induction false} FoundAlike(db: Database, pq: Plan, ks: seq<int>, k: int, ps: seq<Tree>, exact: bool)
    requires ValidDatabase(db) && PlainSub(pq) && k in ks && AllAlike(exact, ps, Naive(db, Where(pq, IdIn(ks))))
    ensures var p, n := FindLast(TreeIdIs(k), ps), Last(Naive(db, Where(pq, IdIs(k))));
      (p.Some? <==> n.Some?) && (p.Some? ==> Alike(exact, p.value, n.value))
  {
    NaiveParent(db, pq, ks, k);
    FindLastAlike(exact, TreeIdIs(k), ps, Naive(db, Where(pq, IdIn(ks))));
  }

  lemma {:induction false} ChildrenLike(db: Database, q: Plan, s: AccountRow, rows: seq<AccountRow>, ns: Neighbors,
                                        i: nat, exact: bool)
    requires ValidDatabase(db) && LevelUnpaged(db, q, exact) && Represents(q, s, rows, i)
    requires AccountsLike(db, q, rows, ns, exact) && (q.withChildren.None? ==> ns.children == [])
    ensures AllAlike(exact, Spread(q, rows, ns, i).children, if IsLast(rows, i) then NaiveNode(db, q, s).children else [])
  {
    if q.withChildren.Some? && IsLast(rows, i) {
      NaiveChildren(db, q.withChildren.value, Map(IdOf(), rows), s.id);
      FilterAlike(exact, TreeParentIs(s.id), ns.children,
                  Naive(db, Where(KeepParentColumn(q.withChildren.value), ParentIn(Map(IdOf(), rows)))));
    }
  }

  lemma {:induction false} GroupsLike(db: Database, q: Plan, s: AccountRow, rows: seq<AccountRow>, ns: Neighbors,
                                      i: nat, exact: bool)
    requires ValidDatabase(db) && LevelUnpaged(db, q, exact) && Represents(q, s, rows, i)
    requires ns.joined == Batch(db, q, rows).joined
    ensures var gs, hs := Spread(q, rows, ns, i).groups, if IsLast(rows, i) then NaiveNode(db, q, s).groups else [];
      SameGroups(gs, hs) && (exact ==> gs == hs)
  {
    if q.withGroups.Some? {
      JoinedAlike(db, q.withGroups.value, Map(IdOf(), rows), s.id, exact);
    } else {
      assert Distinct(GroupIdOf(), []) == [] && GroupsOf([], s.id) == [];
    }
    SpreadGroupsOf(db, q, s, rows, ns, i);
  }

  lemma {:induction false} SpreadGroupsOf(db: Database, q: Plan, s: AccountRow, rows: seq<AccountRow>, ns: Neighbors, i: nat)
    requires i < |rows|
    ensures Spread(q, rows, ns, i).groups == if IsLast(rows, i) then GroupsOf(ns.joined, rows[i].id) else []
    ensures NaiveNode(db, q, s).groups
         == if q.withGroups.None? then []
            else Map(GroupOf(), Distinct(GroupIdOf(), LeafRows(db.groupJoin, LeafWhere(Lifted(q.withGroups.value.asked), JoinedIs(s.id)))))
  {
  }

  lemma {:induction false} JoinedAlike(db: Database, g: GroupsQuery, ids: seq<int>, id: int, exact: bool)
    requires GroupsDetermined(db.groupJoin) && g.joins == [] && Unpaged(g.asked.limit, g.asked.offset) && id in ids
    requires exact ==> OrdersGroups(g.asked.order, db.groupJoin)
    ensures var batch := GroupsOf(JoinedRows(db.groupJoin, AddJoin(g, ids)), id);
      var alone := Map(GroupOf(), Distinct(GroupIdOf(), LeafRows(db.groupJoin, LeafWhere(Lifted(g.asked), JoinedIs(id)))));
      SameGroups(batch, alone) && (exact ==> batch == alone)
  {
    FirstJoin(db.groupJoin, g, ids);
    NaiveGroups(db, g.asked, ids, id, exact);
  }

  lemma {:induction false} ProxyLike(db: Database, q: Plan, s: AccountRow, rows: seq<AccountRow>, ns: Neighbors,
                                     i: nat, exact: bool)
    requires LevelUnpaged(db, q, exact) && Represents(q, s, rows, i) && ns.proxies == Batch(db, q, rows).proxies
    ensures Spread(q, rows, ns, i).proxy == NaiveNode(db, q, s).proxy
  {
    if q.withProxy.Some? && s.proxyId.Some? {
      NaiveProxy(db, q.withProxy.value, Keys(ProxyOf(), rows), s.proxyId.value);
    }
  }

  lemma {:induction false} UsageLike(db: Database, q: Plan, s: AccountRow, rows: seq<AccountRow>, ns: Neighbors,
                                     i: nat, exact: bool)
    requires LevelUnpaged(db, q, exact) && Represents(q, s, rows, i) && ns.usageLogs == Batch(db, q, rows).usageLogs
    ensures Spread(q, rows, ns, i).usageLogs == if IsLast(rows, i) then NaiveNode(db, q, s).usageLogs else []
  {
    if q.withUsageLogs.Some? {
      LeafNarrow(db.usageLogs, q.withUsageLogs.value, UsageIn(Map(IdOf(), rows)), UsageIs(s.id), UsageIs(s.id));
    }
  }

  lemma {:induction false} SpreadLike(db: Database, q: Plan, s: AccountRow, rows: seq<AccountRow>, ns: Neighbors,
                                      i: nat, exact: bool)
    requires ValidDatabase(db) && LevelUnpaged(db, q, exact)
    requires Represents(q, s, rows, i) && ns == Batch(db, q, rows) && AccountsLike(db, q, rows, ns, exact)
    ensures IsExpected(exact, Spread(q, rows, ns, i), NaiveNode(db, q, s), IsLast(rows, i))
  {
    LeavesLike(db, q, s, rows, ns, i, exact);
    ParentLike(db, q, s, rows, ns, i, exact);
    ChildrenLike(db, q, s, rows, ns, i, exact);
    Compose(exact, Spread(q, rows, ns, i), NaiveNode(db, q, s), IsLast(rows, i));
  }

  /** t is as expected, its account edges aside. */
  ghost predicate LeavesExpected(exact: bool, t: Tree, n: Tree, last: bool) {
    && t.row == n.row && t.loaded == n.loaded && t.proxy == n.proxy
    && t.usageLogs == (if last then n.usageLogs else [])
    && SameGroups(t.groups, if last then n.groups else []) && (exact ==> t.groups == if last then n.groups else [])
  }

  lemma {:induction false} LeavesLike(db: Database, q: Plan, s: AccountRow, rows: seq<AccountRow>, ns: Neighbors,
                                      i: nat, exact: bool)
    requires ValidDatabase(db) && LevelUnpaged(db, q, exact)
    requires Represents(q, s, rows, i) && ns == Batch(db, q, rows)
    ensures LeavesExpected(exact, Spread(q, rows, ns, i), NaiveNode(db, q, s), IsLast(rows, i))
  {
    GroupsLike(db, q, s, rows, ns, i, exact);
    ProxyLike(db, q, s, rows, ns, i, exact);
    UsageLike(db, q, s, rows, ns, i, exact);
  }

  lemma {:induction false} Compose(exact: bool, t: Tree, n: Tree, last: bool)
    requires LeavesExpected(exact, t, n, last)
    requires (t.parent.Some? <==> n.parent.Some?) && (t.parent.Some? ==> Alike(exact, t.parent.value, n.parent.value))
    requires AllAlike(exact, t.children, if last then n.children else [])
    ensures IsExpected(exact, t, n, last)
  {
  }

  // ----- the naive node, field by field -----

  lemma {:induction false} NaiveAccounts(db: Database, q: Plan, x: AccountRow)
    ensures NaiveNode(db, q, x).parent
         == if q.withParent.Some? && x.parentId.Some?
            then Last(Naive(db, Where(q.withParent.value, IdIs(x.parentId.value)))) else None
    ensures NaiveNode(db, q, x).children
         == if q.withChildren.Some? then Naive(db, Where(KeepParentColumn(q.withChildren.value), ParentIs(x.id))) else []
    ensures NaiveNode(db, q, x).row.id == x.id
  {
    ProjectKeepsKeys(q, x);
  }

  lemma {:induction false} NaiveLeaves(db: Database, q: Plan, x: AccountRow)
    ensures var t := NaiveNode(db, q, x);
      && t.row == Project(Columns(q))(x) && t.row.id == x.id && t.loaded == LoadedFlags(q)
      && t.groups == (if q.withGroups.None? then []
                      else Map(GroupOf(), Distinct(GroupIdOf(),
                               LeafRows(db.groupJoin, LeafWhere(Lifted(q.withGroups.value.asked), JoinedIs(x.id))))))
      && t.proxy == (if q.withProxy.None? || x.proxyId.None? then None
                     else Last(LeafRows(db.proxies, LeafWhere(q.withProxy.value, ProxyIs(x.proxyId.value)))))
      && t.usageLogs == if q.withUsageLogs.None? then []
                        else LeafRows(db.usageLogs, LeafWhere(q.withUsageLogs.value, UsageIs(x.id)))
  {
    ProjectKeepsKeys(q, x);
  }
}
