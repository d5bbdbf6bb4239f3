/** What a caller can conclude from loaded edges, and from running the same builder again. */
module LoadedEdges {
  import opened Relational
  import opened EagerLoading
  import opened BatchingCorrect

  // ----- many-to-many -----

  ghost predicate Lists(gs: seq<GroupRow>, g: int) { exists i | 0 <= i < |gs| :: gs[i].id == g }

  /** Whatever join rows the driver returns, repeats included, an account's groups are the groups joined to
      it, each exactly once, in the order in which the batch first mentions them. */
  lemma GroupsEachOnce(js: seq<JoinRow>, id: int)
    ensures forall i, j | 0 <= i < j < |GroupsOf(js, id)| :: GroupsOf(js, id)[i].id != GroupsOf(js, id)[j].id
    ensures forall g :: Lists(GroupsOf(js, id), g) <==> Joined(js, id, g)
  {
    var d := Distinct(GroupIdOf(), js);
    var f := Filter(JoinsGroup(js, id), d);
    DistinctCorrect(GroupIdOf(), js);
    KeysDifferFilter(GroupIdOf(), JoinsGroup(js, id), d);
    forall i, j | 0 <= i < j < |f| ensures f[i].group.id != f[j].group.id {
      assert GroupIdOf()(f[i]) != GroupIdOf()(f[j]);
    }
    forall g ensures Lists(GroupsOf(js, id), g) <==> Joined(js, id, g) {
      if i :| 0 <= i < |f| && f[i].group.id == g {
        FilterIn(JoinsGroup(js, id), d, f[i]);
      }
      if Joined(js, id, g) {
        var k :| 0 <= k < |js| && js[k].accountId == id && js[k].group.id == g;
        assert js[k] in js;
        var m :| 0 <= m < |d| && GroupIdOf()(d[m]) == GroupIdOf()(js[k]);
        var y := d[m];
        assert JoinsGroup(js, id)(y);
        FilterIn(JoinsGroup(js, id), d, y);
        var i :| 0 <= i < |f| && f[i] == y;
        assert GroupsOf(js, id)[i].id == g;
      }
    }
  }

  // ----- many-to-one -----

  lemma SelectedPlainIn(db: Database, q: Plan, x: AccountRow)
    requires PlainSub(q) && KeysDiffer(IdOf(), db.accounts)
    ensures x in Selected(db, q) <==> x in db.accounts && All(q.preds)(x)
  {
    SelectedPlain(db, q);
    var kept := Filter(All(q.preds), db.accounts);
    SortIn(q.order, kept);
    FilterIn(All(q.preds), db.accounts, x);
  }

  lemma {:induction false} FindLastCorrect<T>(p: T -> bool, s: seq<T>)
    ensures FindLast(p, s).None? <==> forall x | x in s :: !p(x)
    ensures FindLast(p, s).Some? ==> FindLast(p, s).value in s && p(FindLast(p, s).value)
  {
    if s != [] {
      FindLastCorrect(p, s[..|s| - 1]);
      assert s == s[..|s| - 1] + [s[|s| - 1]];
    }
  }

  /** The account of row x is what the parent load finds under key k. */
  ghost predicate IsAccount(db: Database, pq: Plan, k: int, x: AccountRow) {
    x in db.accounts && All(pq.preds)(x) && x.id == k
  }

  /** Tree t is the entity of some visible row x. */
  ghost predicate IsEntity(db: Database, q: Plan, t: Tree, x: AccountRow) {
    x in db.accounts && All(q.preds)(x) && t.row == Project(Columns(q))(x)
  }

  lemma {:induction false} EntityOf(db: Database, q: Plan, t: Tree)
    requires PlainSub(q) && KeysDiffer(IdOf(), db.accounts) && t in Batched(db, q)
    ensures exists x :: IsEntity(db, q, t, x)
  {
    var i :| 0 <= i < |Batched(db, q)| && Batched(db, q)[i] == t;
    SelectedPlainIn(db, q, Selected(db, q)[i]);
    assert IsEntity(db, q, t, Selected(db, q)[i]);
  }

  lemma {:induction false} EntityFor(db: Database, q: Plan, x: AccountRow)
    requires PlainSub(q) && KeysDiffer(IdOf(), db.accounts) && x in db.accounts && All(q.preds)(x)
    ensures exists t :: t in Batched(db, q) && IsEntity(db, q, t, x)
  {
    SelectedPlainIn(db, q, x);
    var i :| 0 <= i < |Selected(db, q)| && Selected(db, q)[i] == x;
    assert Batched(db, q)[i] in Batched(db, q) && IsEntity(db, q, Batched(db, q)[i], x);
  }

  lemma {:induction false} ParentFound(db: Database, pq: Plan, ks: seq<int>, k: int)
    requires PlainSub(pq) && KeysDiffer(IdOf(), db.accounts) && k in ks
    ensures var p := FindLast(TreeIdIs(k), Batched(db, Where(pq, IdIn(ks))));
      && (p.Some? <==> exists x :: IsAccount(db, pq, k, x))
      && (p.Some? ==> exists x :: IsAccount(db, pq, k, x) && p.value.row == Project(Columns(pq))(x))
  {
    var sub := Where(pq, IdIn(ks));
    var b := Batched(db, sub);
    FindLastCorrect(TreeIdIs(k), b);
    var p := FindLast(TreeIdIs(k), b);
    if p.Some? {
      EntityOf(db, sub, p.value);
      var x :| IsEntity(db, sub, p.value, x);
      AllSnoc(pq.preds, IdIn(ks), x);
      ProjectKeepsKeys(pq, x);
      assert IsAccount(db, pq, k, x);
    }
    if x :| IsAccount(db, pq, k, x) {
      AllSnoc(pq.preds, IdIn(ks), x);
      EntityFor(db, sub, x);
      var t :| t in b && IsEntity(db, sub, t, x);
      ProjectKeepsKeys(pq, x);
      assert TreeIdIs(k)(t);
    }
  }

  lemma RowKeepsParent(q: Plan, s: seq<AccountRow>, i: nat)
    requires q.withParent.Some? && i < |s|
    ensures Map(Project(Columns(q)), s)[i].parentId == s[i].parentId
  {
    ProjectKeepsKeys(q, s[i]);
  }

  lemma {:induction false} ParentAt(db: Database, q: Plan, i: nat)
    requires q.withParent.Some? && i < |RowsOf(db, q)|
    ensures |Batched(db, q)| == |RowsOf(db, q)|
    ensures var r := RowsOf(db, q)[i];
      Batched(db, q)[i].parent
      == if r.parentId.Some?
         then FindLast(TreeIdIs(r.parentId.value), Batched(db, Where(q.withParent.value, IdIn(Keys(ParentOf(), RowsOf(db, q))))))
         else None
  {
  }

  /** The answer of the parent sub-query to the batch. */
  function ParentAnswers(db: Database, q: Plan): seq<Tree>
    requires q.withParent.Some?
  {
    Batched(db, Where(q.withParent.value, IdIn(Keys(ParentOf(), RowsOf(db, q)))))
  }

  function ProxyAnswers(db: Database, q: Plan): seq<ProxyRow>
    requires q.withProxy.Some?
  {
    LeafRows(db.proxies, LeafWhere(q.withProxy.value, ProxyIn(Keys(ProxyOf(), RowsOf(db, q)))))
  }

  /** ParentOrErr after loading: not-loaded exactly when the edge was not requested, not-found exactly when it was and
      the key is null or no account of the sub-query's answer has it, and otherwise an account of that answer that has
      it.  The sub-query may limit and skip. */
  lemma {:induction false} ParentOrErrAfterLoad(db: Database, q: Plan, i: nat)
    requires i < |Batched(db, q)|
    ensures var t, key := Batched(db, q)[i], Selected(db, q)[i].parentId;
      var e := OrErr(t.parent, t.loaded.parent);
      && (e == NotLoaded <==> q.withParent.None?)
      && (e == NotFound <==>
            q.withParent.Some? && (key.None? || forall p | p in ParentAnswers(db, q) :: p.row.id != key.value))
      && (e.Found? ==> key.Some? && e.value in ParentAnswers(db, q) && e.value.row.id == key.value)
  {
    if q.withParent.Some? {
      ParentAt(db, q, i);
      RowKeepsParent(q, Selected(db, q), i);
      var key := Selected(db, q)[i].parentId;
      if key.Some? {
        FindLastCorrect(TreeIdIs(key.value), ParentAnswers(db, q));
        assert forall p: Tree :: TreeIdIs(key.value)(p) <==> p.row.id == key.value;
      }
    }
  }

  /** The same for ProxyOrErr. */
  lemma {:induction false} ProxyOrErrAfterLoad(db: Database, q: Plan, i: nat)
    requires i < |Batched(db, q)|
    ensures var t, key := Batched(db, q)[i], Selected(db, q)[i].proxyId;
      var e := OrErr(t.proxy, t.loaded.proxy);
      && (e == NotLoaded <==> q.withProxy.None?)
      && (e == NotFound <==>
            q.withProxy.Some? && (key.None? || forall p | p in ProxyAnswers(db, q) :: p.id != key.value))
      && (e.Found? ==> key.Some? && e.value in ProxyAnswers(db, q) && e.value.id == key.value)
  {
    ProjectKeepsKeys(q, Selected(db, q)[i]);
    var key := Selected(db, q)[i].proxyId;
    if q.withProxy.Some? && key.Some? {
      FindLastCorrect(ProxyIs(key.value), ProxyAnswers(db, q));
      assert forall p: ProxyRow :: ProxyIs(key.value)(p) <==> p.id == key.value;
    }
  }

  /** Without limit and offset the answer is the whole table: not-loaded exactly when the edge was not requested,
      not-found exactly when it was requested and the key is null or no visible row has it, and otherwise the row that
      has it. */
  lemma {:induction false} ParentOrErrUnpaged(db: Database, q: Plan, i: nat)
    requires KeysDiffer(IdOf(), db.accounts) && i < |Batched(db, q)|
    requires q.withParent.Some? ==> PlainSub(q.withParent.value)
    ensures var t, key := Batched(db, q)[i], Selected(db, q)[i].parentId;
      var e := OrErr(t.parent, t.loaded.parent);
      && (e == NotLoaded <==> q.withParent.None?)
      && (e == NotFound <==>
            (q.withParent.Some? && (key.None? || !exists x :: IsAccount(db, q.withParent.value, key.value, x))))
      && (e.Found? ==> key.Some? && exists x ::
            IsAccount(db, q.withParent.value, key.value, x) && e.value.row == Project(Columns(q.withParent.value))(x))
  {
    var rows := RowsOf(db, q);
    if q.withParent.Some? {
      ParentAt(db, q, i);
      RowKeepsParent(q, Selected(db, q), i);
      if rows[i].parentId.Some? {
        assert rows[i] in rows;
        KeyIn(ParentOf(), rows, rows[i]);
        ParentFound(db, q.withParent.value, Keys(ParentOf(), rows), rows[i].parentId.value);
      }
    }
  }

  /** The same for ProxyOrErr. */
  lemma {:induction false} ProxyOrErrUnpaged(db: Database, q: Plan, i: nat)
    requires i < |Batched(db, q)|
    requires q.withProxy.Some? ==> Unpaged(q.withProxy.value.limit, q.withProxy.value.offset)
    ensures var t, key := Batched(db, q)[i], Selected(db, q)[i].proxyId;
      var e := OrErr(t.proxy, t.loaded.proxy);
      && (e == NotLoaded <==> q.withProxy.None?)
      && (e == NotFound <==>
            (q.withProxy.Some?
              && (key.None? || !exists x :: x in db.proxies && All(q.withProxy.value.preds)(x) && x.id == key.value)))
      && (e.Found? ==> key.Some? && e.value in db.proxies && All(q.withProxy.value.preds)(e.value) && e.value.id == key.value)
  {
    var s, rows := Selected(db, q), RowsOf(db, q);
    ProjectKeepsKeys(q, s[i]);
    if q.withProxy.Some? && s[i].proxyId.Some? {
      assert rows[i] in rows;
      KeyIn(ProxyOf(), rows, rows[i]);
      ProxyFound(db.proxies, q.withProxy.value, Keys(ProxyOf(), rows), s[i].proxyId.value);
    }
  }

  lemma ProxyFound(table: seq<ProxyRow>, lq: LeafQuery<ProxyRow>, ks: seq<int>, k: int)
    requires Unpaged(lq.limit, lq.offset) && k in ks
    ensures var p := FindLast(ProxyIs(k), LeafRows(table, LeafWhere(lq, ProxyIn(ks))));
      && (p.Some? <==> exists x :: x in table && All(lq.preds)(x) && x.id == k)
      && (p.Some? ==> p.value in table && All(lq.preds)(p.value) && p.value.id == k)
  {
    var sub := LeafWhere(lq, ProxyIn(ks));
    var kept, b := Filter(All(sub.preds), table), LeafRows(table, sub);
    SortIn(lq.order, kept);
    FindLastCorrect(ProxyIs(k), b);
    forall x ensures x in b <==> x in table && All(lq.preds)(x) && x.id in ks {
      FilterIn(All(sub.preds), table, x);
      AllSnoc(lq.preds, ProxyIn(ks), x);
    }
    if x :| x in table && All(lq.preds)(x) && x.id == k { assert x in b && ProxyIs(k)(x); }
  }

  // ----- parent and children -----

  /** An unfiltered account sub-query. */
  predicate Unfiltered(q: Option<Plan>) { q.Some? && PlainSub(q.value) && q.value.preds == [] }

  lemma {:induction false} ChildrenFound(db: Database, cq: Plan, ids: seq<int>, p: int, c: AccountRow)
    requires Unfiltered(Some(cq)) && KeysDiffer(IdOf(), db.accounts) && p in ids && c in db.accounts
    ensures var ts := Filter(TreeParentIs(p), Batched(db, Where(KeepParentColumn(cq), ParentIn(ids))));
      (exists k | 0 <= k < |ts| :: ts[k].row.id == c.id) <==> c.parentId == Some(p)
  {
    var sub := Where(KeepParentColumn(cq), ParentIn(ids));
    var b := Batched(db, sub);
    var ts := Filter(TreeParentIs(p), b);
    forall k | 0 <= k < |ts| && ts[k].row.id == c.id ensures c.parentId == Some(p) {
      FilterIn(TreeParentIs(p), b, ts[k]);
      ChildOnlyIf(db, cq, ids, p, c, ts[k]);
    }
    if c.parentId == Some(p) {
      var t := ChildIf(db, cq, ids, p, c);
      FilterIn(TreeParentIs(p), b, t);
      var k :| 0 <= k < |ts| && ts[k] == t;
    }
  }

  lemma {:induction false} ChildOnlyIf(db: Database, cq: Plan, ids: seq<int>, p: int, c: AccountRow, t: Tree)
    requires Unfiltered(Some(cq)) && KeysDiffer(IdOf(), db.accounts) && c in db.accounts
    requires t in Batched(db, Where(KeepParentColumn(cq), ParentIn(ids))) && TreeParentIs(p)(t) && t.row.id == c.id
    ensures c.parentId == Some(p)
  {
    var sub := Where(KeepParentColumn(cq), ParentIn(ids));
    EntityOf(db, sub, t);
    var x :| IsEntity(db, sub, t, x);
    ProjectKeepsKeys(cq, x);
    ProjectKeepsKeys(KeepParentColumn(cq), x);
    SameRow(db.accounts, x, c);
  }

  lemma ChildIf(db: Database, cq: Plan, ids: seq<int>, p: int, c: AccountRow) returns (t: Tree)
    requires Unfiltered(Some(cq)) && KeysDiffer(IdOf(), db.accounts) && c in db.accounts
    requires p in ids && c.parentId == Some(p)
    ensures t in Batched(db, Where(KeepParentColumn(cq), ParentIn(ids))) && TreeParentIs(p)(t) && t.row.id == c.id
  {
    var sub := Where(KeepParentColumn(cq), ParentIn(ids));
    AllSnoc([], ParentIn(ids), c);
    EntityFor(db, sub, c);
    t :| t in Batched(db, sub) && IsEntity(db, sub, t, c);
    ProjectKeepsKeys(cq, c);
    ProjectKeepsKeys(KeepParentColumn(cq), c);
  }

  lemma SameRow(rows: seq<AccountRow>, a: AccountRow, b: AccountRow)
    requires KeysDiffer(IdOf(), rows) && a in rows && b in rows && a.id == b.id
    ensures a == b
  {
    var i :| 0 <= i < |rows| && rows[i] == a;
    var j :| 0 <= j < |rows| && rows[j] == b;
    assert IdOf()(rows[i]) == IdOf()(rows[j]);
  }

  lemma {:induction false} ChildrenSide(db: Database, q: Plan, p: nat, c: AccountRow)
    requires KeysDiffer(IdOf(), db.accounts) && KeysDiffer(IdOf(), Selected(db, q))
    requires Unfiltered(q.withChildren) && p < |Batched(db, q)| && c in db.accounts
    ensures var ts := Batched(db, q);
      (exists k | 0 <= k < |ts[p].children| :: ts[p].children[k].row.id == c.id)
      <==> c.parentId == Some(Selected(db, q)[p].id)
  {
    var ids := Map(IdOf(), RowsOf(db, q));
    BatchedIds(db, q, p);
    LastIffDistinct(q, Selected(db, q), RowsOf(db, q));
    ChildrenAt(db, q, p);
    assert ids[p] == Selected(db, q)[p].id;
    ChildrenFound(db, q.withChildren.value, ids, ids[p], c);
  }

  lemma {:induction false} ChildrenAt(db: Database, q: Plan, p: nat)
    requires q.withChildren.Some? && p < |RowsOf(db, q)| && IsLast(RowsOf(db, q), p)
    ensures |Batched(db, q)| == |RowsOf(db, q)|
    ensures Batched(db, q)[p].children
         == Filter(TreeParentIs(RowsOf(db, q)[p].id),
                   Batched(db, Where(KeepParentColumn(q.withChildren.value), ParentIn(Map(IdOf(), RowsOf(db, q))))))
  {
  }

  lemma {:induction false} ParentSide(db: Database, q: Plan, p: AccountRow, c: nat)
    requires KeysDiffer(IdOf(), db.accounts) && Unfiltered(q.withParent)
    requires c < |Batched(db, q)| && p in db.accounts
    ensures var ts := Batched(db, q);
      (ts[c].parent.Some? && ts[c].parent.value.row.id == p.id) <==> Selected(db, q)[c].parentId == Some(p.id)
  {
    var rows := RowsOf(db, q);
    BatchedIds(db, q, c);
    ParentAt(db, q, c);
    RowKeepsParent(q, Selected(db, q), c);
    if rows[c].parentId.Some? {
      assert rows[c] in rows;
      KeyIn(ParentOf(), rows, rows[c]);
      ParentLink(db, q.withParent.value, Keys(ParentOf(), rows), rows[c].parentId.value, p);
    }
  }

  /** Parent and children are inverse: among the nodes of one result, c is a loaded child of p exactly
      when p is the loaded parent of c. */
  lemma {:induction false} ParentChildrenInverse(db: Database, q: Plan, p: nat, c: nat)
    requires KeysDiffer(IdOf(), db.accounts) && KeysDiffer(IdOf(), Selected(db, q))
    requires forall r | r in Selected(db, q) :: r in db.accounts
    requires Unfiltered(q.withParent) && Unfiltered(q.withChildren)
    requires p < |Batched(db, q)| && c < |Batched(db, q)|
    ensures var ts := Batched(db, q);
      (exists k | 0 <= k < |ts[p].children| :: ts[p].children[k].row.id == ts[c].row.id)
      <==> ts[c].parent.Some? && ts[c].parent.value.row.id == ts[p].row.id
  {
    var s := Selected(db, q);
    assert s[p] in s && s[c] in s;
    BatchedIds(db, q, p);
    BatchedIds(db, q, c);
    ChildrenSide(db, q, p, s[c]);
    ParentSide(db, q, s[p], c);
  }

  lemma {:induction false} BatchedIds(db: Database, q: Plan, i: nat)
    requires i < |Batched(db, q)|
    ensures |Batched(db, q)| == |RowsOf(db, q)| == |Selected(db, q)|
    ensures Batched(db, q)[i].row.id == RowsOf(db, q)[i].id == Selected(db, q)[i].id
  {
    ProjectKeepsKeys(q, Selected(db, q)[i]);
  }

  lemma {:induction false} ParentLink(db: Database, pq: Plan, ks: seq<int>, k: int, p: AccountRow)
    requires Unfiltered(Some(pq)) && KeysDiffer(IdOf(), db.accounts) && k in ks && p in db.accounts
    ensures var t := FindLast(TreeIdIs(k), Batched(db, Where(pq, IdIn(ks))));
      (t.Some? && t.value.row.id == p.id) <==> k == p.id
  {
    ParentFound(db, pq, ks, k);
    FindLastCorrect(TreeIdIs(k), Batched(db, Where(pq, IdIn(ks))));
    if k == p.id { assert IsAccount(db, pq, k, p); }
  }
}
