/** A builder that has run on one database and runs again on another: what is left of the result, at every depth. */
module ReusedBuilder {
  import opened Relational
  import opened EagerLoading
  import opened BatchingCorrect
  import opened SecondRun

  /** What of a tree the builder still finds after a run of q on db: the neighbours whose keys that run asked for, and
      no groups, at every depth. */
  function Kept(db: Database, q: Plan, t: Tree): Tree
    decreases Height(q)
  {
    var rows := RowsOf(db, q);
    var ids, xs, ps := Map(IdOf(), rows), Keys(ProxyOf(), rows), Keys(ParentOf(), rows);
    if rows == [] then t
    else t.(
      groups := [],
      proxy := if t.proxy.Some? && xs != [] && t.proxy.value.id !in xs then None else t.proxy,
      parent := if q.withParent.None? || ps == [] || t.parent.None? then t.parent
                else if t.parent.value.row.id in ps then Some(Kept(db, ParentSub(q, rows), t.parent.value)) else None,
      children := if q.withChildren.None? then t.children
                  else if t.row.id in ids then Map((c: Tree) => Kept(db, ChildrenSub(q, rows), c), t.children) else [],
      usageLogs := if t.row.id in ids then t.usageLogs else [])
  }

  // ----- groups that were joined before -----

  function Never(): GroupRow -> bool { (g: GroupRow) => false }

  /** The query with each groups sub-query that was loaded before replaced by one that finds nothing. */
  function Muted(q: Plan): (m: Plan)
    ensures Height(m) == Height(q)
    decreases Height(q)
  {
    q.(withGroups := if q.withGroups.Some? && q.withGroups.value.joins != []
                     then Some(GroupsQuery(LeafWhere(q.withGroups.value.asked, Never()), [])) else q.withGroups,
       withParent := if q.withParent.Some? then Some(Muted(q.withParent.value)) else None,
       withChildren := if q.withChildren.Some? then Some(Muted(q.withChildren.value)) else None)
  }

  lemma {:induction false} MutedWhere(q: Plan, p: AccountRow -> bool)
    ensures Muted(Where(q, p)) == Where(Muted(q), p) && Muted(KeepParentColumn(q)) == KeepParentColumn(Muted(q))
  {
  }

  lemma {:induction false} MutedRows(db: Database, q: Plan)
    ensures Selected(db, Muted(q)) == Selected(db, q) && RowsOf(db, Muted(q)) == RowsOf(db, q)
    ensures LoadedFlags(Muted(q)) == LoadedFlags(q)
  {
    assert Columns(Muted(q)) == Columns(q);
  }

  lemma NeverRows(table: seq<JoinRow>, asked: LeafQuery<GroupRow>, p: JoinRow -> bool)
    ensures LeafRows(table, LeafWhere(Lifted(LeafWhere(asked, Never())), p)) == []
  {
    var never := Lifted(LeafWhere(asked, Never()));
    forall x ensures !All(never.preds + [p])(x) {
      AllSnoc(never.preds, p, x);
      assert !never.preds[|asked.preds|](x);
    }
    FilterNone(All(never.preds + [p]), table);
  }

  lemma MutedGroups(db: Database, g: GroupsQuery, ids: seq<int>)
    requires g.joins != [] && JoinedRows(db.groupJoin, AddJoin(g, ids)) == []
    ensures JoinedRows(db.groupJoin, AddJoin(GroupsQuery(LeafWhere(g.asked, Never()), []), ids)) == []
  {
    FirstJoin(db.groupJoin, GroupsQuery(LeafWhere(g.asked, Never()), []), ids);
    NeverRows(db.groupJoin, g.asked, JoinedIn(ids));
  }

  lemma {:induction false} NobodyAsked(db: Database, q: Plan)
    ensures Batched(db, Where(q, IdIn([]))) == []
  {
    forall x ensures !All(q.preds + [IdIn([])])(x) { AllSnoc(q.preds, IdIn([]), x); }
    FilterNone(All(q.preds + [IdIn([])]), Source(db, q));
  }

  lemma {:induction false} MutedParents(db: Database, q: Plan, rows: seq<AccountRow>)
    requires q.withParent.Some?
    requires Keys(ParentOf(), rows) != [] ==> Batched(db, Muted(ParentSub(q, rows))) == Batched(db, ParentSub(q, rows))
    ensures Batched(db, ParentSub(Muted(q), rows)) == Batched(db, ParentSub(q, rows))
  {
    var ks := Keys(ParentOf(), rows);
    MutedWhere(q.withParent.value, IdIn(ks));
    if ks == [] {
      NobodyAsked(db, q.withParent.value);
      NobodyAsked(db, Muted(q.withParent.value));
    }
  }

  lemma {:induction false} MutedChildren(db: Database, q: Plan, rows: seq<AccountRow>)
    requires q.withChildren.Some?
    requires Batched(db, Muted(ChildrenSub(q, rows))) == Batched(db, ChildrenSub(q, rows))
    ensures Batched(db, ChildrenSub(Muted(q), rows)) == Batched(db, ChildrenSub(q, rows))
  {
    MutedWhere(KeepParentColumn(q.withChildren.value), ParentIn(Map(IdOf(), rows)));
    MutedWhere(q.withChildren.value, ParentIn(Map(IdOf(), rows)));
  }

  lemma {:induction false} MutedJoined(db: Database, q: Plan, ids: seq<int>)
    requires q.withGroups.Some? && !GroupsPanic(db, q.withGroups, ids)
    ensures JoinedRows(db.groupJoin, AddJoin(Muted(q).withGroups.value, ids))
         == JoinedRows(db.groupJoin, AddJoin(q.withGroups.value, ids))
  {
    if q.withGroups.value.joins != [] { MutedGroups(db, q.withGroups.value, ids); }
  }

  lemma {:induction false} MutedBatch(db: Database, q: Plan, m: Plan, rows: seq<AccountRow>)
    requires m == q.(withGroups := m.withGroups, withParent := m.withParent, withChildren := m.withChildren)
    requires LoadedFlags(m) == LoadedFlags(q)
    requires q.withGroups.Some? ==>
               var ids := Map(IdOf(), rows);
               JoinedRows(db.groupJoin, AddJoin(m.withGroups.value, ids)) == JoinedRows(db.groupJoin, AddJoin(q.withGroups.value, ids))
    requires q.withParent.Some? ==> Batched(db, ParentSub(m, rows)) == Batched(db, ParentSub(q, rows))
    requires q.withChildren.Some? ==> Batched(db, ChildrenSub(m, rows)) == Batched(db, ChildrenSub(q, rows))
    ensures Batch(db, m, rows) == Batch(db, q, rows)
  {
  }

  /** A run that returns found no groups where they had been joined before. */
  lemma {:induction false} MutedSame(db: Database, q: Plan)
    requires !Panics(db, q)
    ensures Batched(db, Muted(q)) == Batched(db, q)
    decreases Height(q)
  {
    var rows := RowsOf(db, q);
    MutedRows(db, q);
    if rows != [] {
      if q.withParent.Some? {
        if Keys(ParentOf(), rows) != [] { MutedSame(db, ParentSub(q, rows)); }
        MutedParents(db, q, rows);
      }
      if q.withChildren.Some? {
        MutedSame(db, ChildrenSub(q, rows));
        MutedChildren(db, q, rows);
      }
      if q.withGroups.Some? { MutedJoined(db, q, Map(IdOf(), rows)); }
      MutedBatch(db, q, Muted(q), rows);
      SameBatch(db, q, Muted(q));
    } else {
      NoRows(db, q);
      NoRows(db, Muted(q));
    }
  }

  lemma {:induction false} MutedUnjoined(q: Plan)
    ensures Unjoined(Muted(q)) && (Unjoined(q) ==> Muted(q) == q)
    decreases Height(q)
  {
    if q.withParent.Some? { MutedUnjoined(q.withParent.value); }
    if q.withChildren.Some? { MutedUnjoined(q.withChildren.value); }
  }

  /** Every sub-query of q itself is unpaged, and a groups sub-query orders the groups if that matters. */
  ghost predicate IsPlain(db: Database, exact: bool, q: Plan) {
    && LeavesPlain(db, exact, q)
    && (q.withParent.Some? ==> PlainSub(q.withParent.value))
    && (q.withChildren.Some? ==> PlainSub(q.withChildren.value))
  }

  ghost predicate LeavesPlain(db: Database, exact: bool, q: Plan) {
    && (q.withGroups.Some? ==>
          && Unpaged(q.withGroups.value.asked.limit, q.withGroups.value.asked.offset)
          && (exact ==> OrdersGroups(q.withGroups.value.asked.order, db.groupJoin)))
    && (q.withProxy.Some? ==> Unpaged(q.withProxy.value.limit, q.withProxy.value.offset))
    && (q.withUsageLogs.Some? ==> Unpaged(q.withUsageLogs.value.limit, q.withUsageLogs.value.offset))
  }

  ghost function PlainLevel(db: Database, exact: bool): Plan -> bool { (q: Plan) => IsPlain(db, exact, q) }

  lemma {:induction false} PlainLevels(db: Database, exact: bool, q: Plan)
    ensures AllLevels(PlainLevel(db, exact), q) <==> NestedUnpaged(q) && (exact ==> GroupsOrdered(db, q))
    decreases Height(q)
  {
    if q.withParent.Some? { PlainLevels(db, exact, q.withParent.value); }
    if q.withChildren.Some? { PlainLevels(db, exact, q.withChildren.value); }
  }

  lemma PlainSurvives(db1: Database, db: Database, exact: bool)
    ensures Survives(PlainLevel(db, exact), db1)
  {
    forall q: Plan | PlainLevel(db, exact)(q) ensures PlainLevel(db, exact)(After(db1, q)) {
      LeavesAfter(db1, db, exact, q);
      SubsAfter(db1, q);
    }
  }

  lemma {:induction false} LeavesAfter(db1: Database, db: Database, exact: bool, q: Plan)
    requires LeavesPlain(db, exact, q)
    ensures LeavesPlain(db, exact, After(db1, q))
  {
  }

  lemma {:induction false} SubsAfter(db: Database, q: Plan)
    requires (q.withParent.Some? ==> PlainSub(q.withParent.value)) && (q.withChildren.Some? ==> PlainSub(q.withChildren.value))
    ensures var a := After(db, q);
      && (a.withParent.Some? ==> PlainSub(a.withParent.value)) && (a.withChildren.Some? ==> PlainSub(a.withChildren.value))
  {
    var rows := RowsOf(db, q);
    AfterSubs(db, q, rows);
    if q.withParent.Some? { PlainSubAfter(db, ParentSub(q, rows)); }
    if q.withChildren.Some? { PlainSubAfter(db, ChildrenSub(q, rows)); }
  }

  lemma {:induction false} PlainSubAfter(db: Database, q: Plan)
    ensures PlainSub(After(db, q)) == PlainSub(q)
  {
  }

  lemma {:induction false} PlainMuted(db: Database, exact: bool, q: Plan)
    requires AllLevels(PlainLevel(db, exact), q)
    ensures AllLevels(PlainLevel(db, exact), Muted(q))
    decreases Height(q)
  {
    if q.withParent.Some? { PlainMuted(db, exact, q.withParent.value); }
    if q.withChildren.Some? { PlainMuted(db, exact, q.withChildren.value); }
  }

  /** The used builder, its joined groups muted, is as plain as the new one. */
  lemma {:induction false} ReusedPlain(db1: Database, db: Database, exact: bool, q: Plan)
    requires NestedUnpaged(q) && (exact ==> GroupsOrdered(db, q))
    ensures var b := Reused(db1, q); Unjoined(b) && NestedUnpaged(b) && (exact ==> GroupsOrdered(db, b))
  {
    PlainLevels(db, exact, q);
    PlainSurvives(db1, db, exact);
    AllLevelsAfter(PlainLevel(db, exact), db1, q);
    PlainMuted(db, exact, After(db1, q));
    PlainLevels(db, exact, Reused(db1, q));
    MutedUnjoined(After(db1, q));
  }

  /** What the loads of q ask for is as plain as what q asks for. */
  lemma {:induction false} PlainKept(sub: Plan, q: Plan)
    requires sub == q.(preds := sub.preds, fields := sub.fields)
    ensures NestedUnpaged(sub) == NestedUnpaged(q) && Unjoined(sub) == Unjoined(q)
  {
  }

  // ----- the naive join of the used builder -----

  /** The builder after a run of q on db, its joined groups muted. */
  function Reused(db: Database, q: Plan): Plan { Muted(After(db, q)) }

  function KeptOf(db: Database, q: Plan): Tree -> Tree { (t: Tree) => Kept(db, q, t) }

  /** The neighbours that a used sub-query finds for one key, given what its nodes are. */
  lemma {:induction false} ChosenKept(db1: Database, db2: Database, sub: Plan, pq: Plan, first: AccountRow -> bool,
                                      own: AccountRow -> bool, asked: bool)
    requires sub == Where(pq, first) && PlainSub(pq) && KeysDiffer(IdOf(), db2.accounts)
    requires forall x | own(x) :: first(x) == asked
    requires forall x :: NaiveNode(db2, Reused(db1, sub), x) == Kept(db1, sub, NaiveNode(db2, sub, x))
    ensures Naive(db2, Where(Reused(db1, sub), own)) == if asked then Map(KeptOf(db1, sub), Naive(db2, Where(pq, own))) else []
  {
    var b := Reused(db1, sub);
    NaiveWhere(db2, b, own);
    NaiveWhere(db2, pq, own);
    SelectedReused(db1, db2, sub, pq, first, own, asked);
    forall x ensures NodeOf(db2, b)(x) == KeptOf(db1, sub)(NodeOf(db2, pq)(x)) { SameNode(db2, pq, first, x); }
  }

  lemma {:induction false} SelectedReused(db1: Database, db2: Database, sub: Plan, pq: Plan, first: AccountRow -> bool,
                                          own: AccountRow -> bool, asked: bool)
    requires sub == Where(pq, first) && PlainSub(pq) && KeysDiffer(IdOf(), db2.accounts)
    requires forall x | own(x) :: first(x) == asked
    ensures Selected(db2, Where(Reused(db1, sub), own)) == if asked then Selected(db2, Where(pq, own)) else []
  {
    var b := Reused(db1, sub);
    assert b.preds == pq.preds + [first] && b.order == pq.order && PlainSub(b);
    SelectedPlain(db2, Where(b, own));
    SelectedPlain(db2, Where(pq, own));
    AskedRows(db2.accounts, pq.preds, first, own, asked);
  }

  lemma {:induction false} IdsFound(db: Database, q: Plan, k: int)
    requires PlainSub(q) && KeysDiffer(IdOf(), db.accounts)
    ensures forall t | t in Naive(db, Where(q, IdIs(k))) :: t.row.id == k
  {
    var w := Where(q, IdIs(k));
    var s := Selected(db, w);
    SelectedPlain(db, w);
    SortIn(w.order, Filter(All(w.preds), db.accounts));
    NaiveWhere(db, q, IdIs(k));
    forall i | 0 <= i < |s| ensures NaiveNode(db, q, s[i]).row.id == k {
      assert s[i] in s;
      FilterIn(All(w.preds), db.accounts, s[i]);
      AllSnoc(q.preds, IdIs(k), s[i]);
      ProjectKeepsKeys(q, s[i]);
    }
  }

  /** What the used builder asks of the account edges. */
  lemma {:induction false} ReusedSubs(db: Database, q: Plan, rows: seq<AccountRow>)
    requires rows == RowsOf(db, q) && rows != []
    ensures q.withParent.Some? && Keys(ParentOf(), rows) != [] ==>
              Reused(db, q).withParent == Some(Reused(db, ParentSub(q, rows)))
    ensures q.withParent.Some? && Keys(ParentOf(), rows) == [] ==>
              Reused(db, q).withParent == Some(Muted(q.withParent.value))
    ensures q.withChildren.Some? ==> Reused(db, q).withChildren == Some(Reused(db, ChildrenSub(q, rows)))
    ensures (q.withParent.None? ==> Reused(db, q).withParent.None?)
         && (q.withChildren.None? ==> Reused(db, q).withChildren.None?)
  {
    AfterSubs(db, q, rows);
  }

  lemma {:induction false} KeptAccounts(db: Database, q: Plan, rows: seq<AccountRow>, t: Tree)
    requires rows == RowsOf(db, q) && rows != []
    ensures Kept(db, q, t).parent
         == var ps := Keys(ParentOf(), rows);
            if q.withParent.None? || ps == [] || t.parent.None? then t.parent
            else if t.parent.value.row.id in ps then Some(KeptOf(db, ParentSub(q, rows))(t.parent.value)) else None
    ensures Kept(db, q, t).children
         == if q.withChildren.None? then t.children
            else if t.row.id in Map(IdOf(), rows) then Map(KeptOf(db, ChildrenSub(q, rows)), t.children) else []
  {
  }

  lemma {:induction false} ParentKept(db1: Database, db2: Database, q: Plan, rows: seq<AccountRow>, x: AccountRow)
    requires rows == RowsOf(db1, q) && rows != [] && KeysDiffer(IdOf(), db2.accounts)
    requires q.withParent.Some? && PlainSub(q.withParent.value) && Unjoined(q.withParent.value)
    requires Keys(ParentOf(), rows) != [] ==>
               var sub := ParentSub(q, rows);
               forall y :: NaiveNode(db2, Reused(db1, sub), y) == Kept(db1, sub, NaiveNode(db2, sub, y))
    ensures NaiveNode(db2, Reused(db1, q), x).parent == Kept(db1, q, NaiveNode(db2, q, x)).parent
  {
    var pq, ps := q.withParent.value, Keys(ParentOf(), rows);
    ReusedSubs(db1, q, rows);
    MutedUnjoined(pq);
    NaiveAccounts(db2, Reused(db1, q), x);
    NaiveAccounts(db2, q, x);
    KeptAccounts(db1, q, rows, NaiveNode(db2, q, x));
    if x.parentId.Some? && ps != [] {
      var sub, k := ParentSub(q, rows), x.parentId.value;
      ChosenKept(db1, db2, sub, pq, IdIn(ps), IdIs(k), k in ps);
      LastKept(db1, db2, sub, pq, k);
    }
  }

  lemma {:induction false} LastKept(db1: Database, db2: Database, sub: Plan, pq: Plan, k: int)
    requires PlainSub(pq) && KeysDiffer(IdOf(), db2.accounts)
    ensures var found := Naive(db2, Where(pq, IdIs(k)));
      && Last(Map(KeptOf(db1, sub), found)) == (if found == [] then None else Some(KeptOf(db1, sub)(Last(found).value)))
      && (found != [] ==> Last(found).value.row.id == k)
  {
    var found := Naive(db2, Where(pq, IdIs(k)));
    IdsFound(db2, pq, k);
    assert found != [] ==> found[|found| - 1] in found;
  }

  lemma {:induction false} ChildrenKept(db1: Database, db2: Database, q: Plan, rows: seq<AccountRow>, x: AccountRow)
    requires rows == RowsOf(db1, q) && rows != [] && KeysDiffer(IdOf(), db2.accounts)
    requires q.withChildren.Some? && PlainSub(q.withChildren.value)
    requires var sub := ChildrenSub(q, rows);
      forall y :: NaiveNode(db2, Reused(db1, sub), y) == Kept(db1, sub, NaiveNode(db2, sub, y))
    ensures NaiveNode(db2, Reused(db1, q), x).children == Kept(db1, q, NaiveNode(db2, q, x)).children
  {
    var cq, ids, sub := KeepParentColumn(q.withChildren.value), Map(IdOf(), rows), ChildrenSub(q, rows);
    ReusedSubs(db1, q, rows);
    NaiveAccounts(db2, Reused(db1, q), x);
    NaiveAccounts(db2, q, x);
    KeptAccounts(db1, q, rows, NaiveNode(db2, q, x));
    ChosenKept(db1, db2, sub, cq, ParentIn(ids), ParentIs(x.id), x.id in ids);
    KeptTwice(db1, q.withChildren.value, ParentIn(ids));
    MutedWhere(After(db1, sub), ParentIn(ids));
  }

  /** What the used builder asks of the other edges. */
  lemma {:induction false} ReusedLeaves(db: Database, q: Plan, rows: seq<AccountRow>)
    requires rows == RowsOf(db, q) && rows != []
    ensures var b, ids, xs := Reused(db, q), Map(IdOf(), rows), Keys(ProxyOf(), rows);
      && LoadedFlags(b) == LoadedFlags(q) && Columns(b) == Columns(q)
      && (q.withGroups.Some? ==> b.withGroups == Some(GroupsQuery(LeafWhere(q.withGroups.value.asked, Never()), [])))
      && (q.withProxy.Some? && xs == [] ==> b.withProxy == q.withProxy)
      && (q.withProxy.Some? && xs != [] ==> b.withProxy == Some(LeafWhere(q.withProxy.value, ProxyIn(xs))))
      && (q.withUsageLogs.Some? ==> b.withUsageLogs == Some(LeafWhere(q.withUsageLogs.value, UsageIn(ids))))
  {
  }

  lemma {:induction false} LeavesKept(db1: Database, db2: Database, q: Plan, rows: seq<AccountRow>, x: AccountRow)
    requires rows == RowsOf(db1, q) && rows != []
    ensures var t, u := NaiveNode(db2, Reused(db1, q), x), Kept(db1, q, NaiveNode(db2, q, x));
      t.row == u.row && t.loaded == u.loaded && t.groups == u.groups && t.proxy == u.proxy && t.usageLogs == u.usageLogs
  {
    ReusedLeaves(db1, q, rows);
    NaiveLeaves(db2, Reused(db1, q), x);
    NaiveLeaves(db2, q, x);
    KeptLeaves(db1, q, rows, NaiveNode(db2, q, x));
    if q.withGroups.Some? { NeverRows(db2.groupJoin, q.withGroups.value.asked, JoinedIs(x.id)); }
    if q.withProxy.Some? && x.proxyId.Some? { ProxyKept(db2, q.withProxy.value, Keys(ProxyOf(), rows), x.proxyId.value); }
    if q.withUsageLogs.Some? {
      var ids := Map(IdOf(), rows);
      LeafAsked(db2.usageLogs, q.withUsageLogs.value, UsageIn(ids), UsageIs(x.id), x.id in ids);
    }
  }

  lemma {:induction false} KeptLeaves(db: Database, q: Plan, rows: seq<AccountRow>, t: Tree)
    requires rows == RowsOf(db, q) && rows != []
    ensures var u, xs := Kept(db, q, t), Keys(ProxyOf(), rows);
      && u.row == t.row && u.loaded == t.loaded && u.groups == []
      && u.proxy == (if t.proxy.Some? && xs != [] && t.proxy.value.id !in xs then None else t.proxy)
      && u.usageLogs == if t.row.id in Map(IdOf(), rows) then t.usageLogs else []
  {
  }

  lemma ProxyKept(db: Database, lq: LeafQuery<ProxyRow>, xs: seq<int>, k: int)
    ensures LeafRows(db.proxies, LeafWhere(LeafWhere(lq, ProxyIn(xs)), ProxyIs(k)))
         == if k in xs then LeafRows(db.proxies, LeafWhere(lq, ProxyIs(k))) else []
    ensures var p := Last(LeafRows(db.proxies, LeafWhere(lq, ProxyIs(k)))); p.Some? ==> p.value.id == k
  {
    LeafAsked(db.proxies, lq, ProxyIn(xs), ProxyIs(k), k in xs);
    ProxyFound(db.proxies, lq, k);
  }

  lemma ProxyFound(table: seq<ProxyRow>, lq: LeafQuery<ProxyRow>, k: int)
    ensures forall p | p in LeafRows(table, LeafWhere(lq, ProxyIs(k))) :: p.id == k
  {
    LeafRowsIn(table, LeafWhere(lq, ProxyIs(k)));
    forall p | p in LeafRows(table, LeafWhere(lq, ProxyIs(k))) ensures p.id == k { AllSnoc(lq.preds, ProxyIs(k), p); }
  }

  /** A node of the used builder is what is kept of the node of a new one. */
  lemma {:induction false} NaiveKept(db1: Database, db2: Database, q: Plan, x: AccountRow)
    requires KeysDiffer(IdOf(), db2.accounts) && NestedUnpaged(q) && Unjoined(q)
    ensures NaiveNode(db2, Reused(db1, q), x) == Kept(db1, q, NaiveNode(db2, q, x))
    decreases Height(q)
  {
    var rows := RowsOf(db1, q);
    MutedUnjoined(q);
    if rows != [] {
      LeavesKept(db1, db2, q, rows, x);
      if q.withParent.Some? {
        PlainKept(ParentSub(q, rows), q.withParent.value);
        forall y { NaiveKept(db1, db2, ParentSub(q, rows), y); }
        ParentKept(db1, db2, q, rows, x);
      }
      if q.withChildren.Some? {
        PlainKept(ChildrenSub(q, rows), q.withChildren.value);
        forall y { NaiveKept(db1, db2, ChildrenSub(q, rows), y); }
        ChildrenKept(db1, db2, q, rows, x);
      }
    }
  }

  // ----- the theorem -----

  lemma {:induction false} AlikeSym(exact: bool, t: Tree, u: Tree)
    requires Alike(exact, t, u)
    ensures Alike(exact, u, t)
    decreases t
  {
    if t.parent.Some? { AlikeSym(exact, t.parent.value, u.parent.value); }
    forall k | 0 <= k < |t.children| ensures Alike(exact, u.children[k], t.children[k]) {
      AlikeSym(exact, t.children[k], u.children[k]);
    }
  }

  lemma {:induction false} AlikeTrans(exact: bool, t: Tree, u: Tree, v: Tree)
    requires Alike(exact, t, u) && Alike(exact, u, v)
    ensures Alike(exact, t, v)
    decreases t
  {
    if t.parent.Some? { AlikeTrans(exact, t.parent.value, u.parent.value, v.parent.value); }
    forall k | 0 <= k < |t.children| ensures Alike(exact, t.children[k], v.children[k]) {
      AlikeTrans(exact, t.children[k], u.children[k], v.children[k]);
    }
  }

  lemma {:induction false} KeptAlike(db: Database, q: Plan, exact: bool, t: Tree, u: Tree)
    requires Alike(exact, t, u)
    ensures Alike(exact, Kept(db, q, t), Kept(db, q, u))
    decreases Height(q)
  {
    var rows := RowsOf(db, q);
    if rows != [] {
      KeptLeaves(db, q, rows, t);
      KeptLeaves(db, q, rows, u);
      KeptAccounts(db, q, rows, t);
      KeptAccounts(db, q, rows, u);
      if q.withParent.Some? && t.parent.Some? { KeptAlike(db, ParentSub(q, rows), exact, t.parent.value, u.parent.value); }
      if q.withChildren.Some? {
        forall k | 0 <= k < |t.children| { KeptAlike(db, ChildrenSub(q, rows), exact, t.children[k], u.children[k]); }
      }
    }
  }

  lemma {:induction false} KeptShadowed(db: Database, q: Plan, t: Tree)
    ensures Kept(db, q, Shadowed(t)) == Shadowed(Kept(db, q, t))
  {
  }

  lemma {:induction false} ReusedNode(db1: Database, q: Plan, exact: bool, used: Tree, first: Tree, naive: Tree, last: bool)
    requires IsExpected(exact, first, naive, last) && IsExpected(exact, used, Kept(db1, q, naive), last)
    ensures Alike(exact, used, Kept(db1, q, first))
  {
    var e := if last then naive else Shadowed(naive);
    KeptShadowed(db1, q, naive);
    KeptAlike(db1, q, exact, first, e);
    AlikeSym(exact, Kept(db1, q, first), Kept(db1, q, e));
    AlikeTrans(exact, used, Kept(db1, q, e), Kept(db1, q, first));
  }

  lemma {:induction false} ReusedRows(db1: Database, db2: Database, q: Plan)
    ensures Selected(db2, Reused(db1, q)) == Selected(db2, q) && RowsOf(db2, Reused(db1, q)) == RowsOf(db2, q)
  {
    RowsAgreeOn(db1, db2, q);
    MutedRows(db2, After(db1, q));
  }

  lemma {:induction false} ReusedLike(db1: Database, db2: Database, q: Plan, exact: bool)
    requires ValidDatabase(db2) && NestedUnpaged(q) && Unjoined(q) && (exact ==> GroupsOrdered(db2, q))
    requires Run(db2, After(db1, q)).Returned?
    ensures AllAlike(exact, Batched(db2, After(db1, q)), Map(KeptOf(db1, q), Batched(db2, q)))
  {
    var b, s, rows := Reused(db1, q), Selected(db2, q), RowsOf(db2, q);
    MutedSame(db2, After(db1, q));
    ReusedPlain(db1, db2, exact, q);
    ReusedRows(db1, db2, q);
    BatchedLike(db2, b, exact);
    BatchedLike(db2, q, exact);
    NaiveNodes(db2, b);
    NaiveNodes(db2, q);
    forall i | 0 <= i < |rows| ensures Alike(exact, Batched(db2, b)[i], Kept(db1, q, Batched(db2, q)[i])) {
      NaiveKept(db1, db2, q, s[i]);
      ReusedNode(db1, q, exact, Batched(db2, b)[i], Batched(db2, q)[i], Naive(db2, q)[i], IsLast(rows, i));
    }
  }

  /** On whatever database, a second run that returns gives what a new builder finds there, less the neighbours whose
      keys the first run did not ask for and less the groups, at every depth; up to the order of groups where the first
      run reached nothing, and in the same order if the groups sub-queries order the groups. */
  lemma {:induction false} SecondRunAnywhere(db1: Database, db2: Database, q: Plan)
    requires ValidDatabase(db2) && NestedUnpaged(q) && Unjoined(q) && Run(db2, After(db1, q)).Returned?
    ensures AllAlike(false, Batched(db2, After(db1, q)), Map(KeptOf(db1, q), Batched(db2, q)))
    ensures GroupsOrdered(db2, q) ==> Batched(db2, After(db1, q)) == Map(KeptOf(db1, q), Batched(db2, q))
  {
    ReusedLike(db1, db2, q, false);
    if GroupsOrdered(db2, q) {
      ReusedLike(db1, db2, q, true);
      AllAlikeEqual(Batched(db2, After(db1, q)), Map(KeptOf(db1, q), Batched(db2, q)));
    }
  }

  lemma {:induction false} AllAlikeEqual(ts: seq<Tree>, us: seq<Tree>)
    requires AllAlike(true, ts, us)
    ensures ts == us
  {
    forall i | 0 <= i < |ts| ensures ts[i] == us[i] { AlikeIsEqual(ts[i], us[i]); }
  }
}
