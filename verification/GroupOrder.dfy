/** The order of an account's groups: the batch lists them as a lookup for the account alone does exactly when the
    order terms tell any two groups apart. */
module GroupOrder {
  import opened Relational
  import opened EagerLoading
  import opened BatchingCorrect

  /** Two accounts with their groups, in the given order. */
  function WithOrderedGroups(ts: seq<OrderTerm<GroupRow>>): Plan {
    EmptyPlan.(preds := [IdIn([1, 2])], withGroups := Some(GroupsQuery(LeafQuery([], ts, None, None), [])))
  }

  /** No two different groups are tied. */
  ghost predicate Separates(ts: seq<OrderTerm<GroupRow>>) {
    forall a, b: GroupRow | Le(ts, a, b) && Le(ts, b, a) :: a.id == b.id
  }

  /** Account 2 joined to group b, and account 1 joined to both groups, a first. */
  function MixedRows(a: GroupRow, b: GroupRow): seq<JoinRow> { [JoinRow(2, b)] + [JoinRow(1, a)] + [JoinRow(1, b)] }

  lemma MixedDistinct(a: GroupRow, b: GroupRow)
    requires a.id != b.id
    ensures Distinct(GroupIdOf(), MixedRows(a, b)) == [JoinRow(2, b)] + [JoinRow(1, a)]
  {
    var first, two := [JoinRow(2, b)], [JoinRow(2, b)] + [JoinRow(1, a)];
    assert first == [] + [JoinRow(2, b)];
    DistinctSnoc([], JoinRow(2, b));
    DistinctSnoc(first, JoinRow(1, a));
    DistinctSnoc(two, JoinRow(1, b));
    assert two[0].group.id == b.id;
  }

  lemma MixedBatch(a: GroupRow, b: GroupRow)
    requires a.id != b.id
    ensures GroupsOf(MixedRows(a, b), 1) == [b, a]
  {
    var joined := MixedRows(a, b);
    var p := JoinsGroup(joined, 1);
    MixedDistinct(a, b);
    assert joined[1] == JoinRow(1, a) && joined[2] == JoinRow(1, b);
    FilterAll(p, [JoinRow(2, b)] + [JoinRow(1, a)]);
  }

  lemma MixedAlone(a: GroupRow, b: GroupRow)
    requires a.id != b.id
    ensures Distinct(GroupIdOf(), Filter(JoinedIs(1), MixedRows(a, b))) == [JoinRow(1, a)] + [JoinRow(1, b)]
  {
    var p, first := JoinedIs(1), [JoinRow(2, b)];
    FilterNone(p, first);
    FilterSnoc(p, first, JoinRow(1, a));
    FilterSnoc(p, first + [JoinRow(1, a)], JoinRow(1, b));
    assert [] + [JoinRow(1, a)] == [JoinRow(1, a)];
    DistinctIdentity(GroupIdOf(), [JoinRow(1, a)] + [JoinRow(1, b)]);
  }

  function TwoAccounts(js: seq<JoinRow>): Database {
    Database([AccountRow(1, None, None, map[]), AccountRow(2, None, None, map[])], [], [], js)
  }

  /** Tied groups keep the order in which the join delivers them. */
  lemma {:induction false} MixedTied(ts: seq<OrderTerm<GroupRow>>, a: GroupRow, b: GroupRow, js: seq<JoinRow>)
    requires Le(ts, a, b) && Le(ts, b, a) && forall j | j in js :: j.group == a || j.group == b
    ensures Sort(Lifted(LeafQuery([], ts, None, None)).order, js) == js
  {
    var q := LeafQuery([], ts, None, None);
    LeTotal(ts, a, a);
    LeTotal(ts, b, b);
    forall i, j | 0 <= i < j < |js| ensures Le(Lifted(q).order, js[i], js[j]) {
      assert js[i] in js && js[j] in js;
      LiftedLe(ts, q, js[i], js[j]);
    }
    SortSorted(Lifted(q).order, js);
  }

  lemma {:induction false} TiedRows(ts: seq<OrderTerm<GroupRow>>, a: GroupRow, b: GroupRow)
    requires Le(ts, a, b) && Le(ts, b, a)
    ensures var lq := Lifted(LeafQuery([], ts, None, None));
      && LeafRows(MixedRows(a, b), LeafWhere(lq, JoinedIn([1, 2]))) == MixedRows(a, b)
      && LeafRows(MixedRows(a, b), LeafWhere(lq, JoinedIs(1))) == Filter(JoinedIs(1), MixedRows(a, b))
  {
    var lq, js := Lifted(LeafQuery([], ts, None, None)), MixedRows(a, b);
    assert lq.preds == [];
    forall x | x in js ensures All([] + [JoinedIn([1, 2])])(x) { AllSnoc([], JoinedIn([1, 2]), x); }
    FilterAll(All([] + [JoinedIn([1, 2])]), js);
    MixedTied(ts, a, b, js);
    forall x | x in js ensures All([] + [JoinedIs(1)])(x) == JoinedIs(1)(x) { AllSnoc([], JoinedIs(1), x); }
    FilterAgree(All([] + [JoinedIs(1)]), JoinedIs(1), js);
    var own := Filter(JoinedIs(1), js);
    forall j | j in own ensures j.group == a || j.group == b { FilterIn(JoinedIs(1), js, j); }
    MixedTied(ts, a, b, own);
  }

  lemma TwoSelected(js: seq<JoinRow>, q: Plan)
    requires q.source.None? && q.preds == [IdIn([1, 2])] && q.order == [] && q.unique.None?
    requires q.limit.None? && q.offset.None? && q.fields == []
    ensures Selected(TwoAccounts(js), q) == TwoAccounts(js).accounts == RowsOf(TwoAccounts(js), q)
    ensures Map(IdOf(), RowsOf(TwoAccounts(js), q)) == [1, 2]
  {
    var top := TwoAccounts(js).accounts;
    assert [] + [IdIn([1, 2])] == q.preds;
    forall x | x in top ensures All(q.preds)(x) { AllSnoc([], IdIn([1, 2]), x); }
    FilterAll(All(q.preds), top);
    SortUnordered(top);
  }

  lemma {:induction false} GroupsAt(db: Database, q: Plan, i: nat)
    requires q.withGroups.Some? && i < |RowsOf(db, q)| && IsLast(RowsOf(db, q), i)
    ensures |Batched(db, q)| == |Naive(db, q)| == |Selected(db, q)| == |RowsOf(db, q)|
    ensures Batched(db, q)[i].groups
         == GroupsOf(JoinedRows(db.groupJoin, AddJoin(q.withGroups.value, Map(IdOf(), RowsOf(db, q)))), RowsOf(db, q)[i].id)
    ensures Naive(db, q)[i].groups
         == Map(GroupOf(), Distinct(GroupIdOf(),
                LeafRows(db.groupJoin, LeafWhere(Lifted(q.withGroups.value.asked), JoinedIs(Selected(db, q)[i].id)))))
  {
  }

  lemma {:induction false} FirstGroups(db: Database, q: Plan, g: GroupsQuery, joined: seq<JoinRow>, own: seq<JoinRow>,
                                         batch: seq<GroupRow>, alone: seq<GroupRow>)
    requires q.withGroups == Some(g) && |RowsOf(db, q)| == 2 && Map(IdOf(), RowsOf(db, q)) == [1, 2]
    requires |Selected(db, q)| == 2 && Selected(db, q)[0].id == 1
    requires JoinedRows(db.groupJoin, AddJoin(g, [1, 2])) == joined
    requires LeafRows(db.groupJoin, LeafWhere(Lifted(g.asked), JoinedIs(1))) == own
    requires GroupsOf(joined, 1) == batch && Map(GroupOf(), Distinct(GroupIdOf(), own)) == alone
    ensures |Batched(db, q)| == |Naive(db, q)| == 2
    ensures Batched(db, q)[0].groups == batch && Naive(db, q)[0].groups == alone
  {
    var ids := Map(IdOf(), RowsOf(db, q));
    assert ids[0] == RowsOf(db, q)[0].id && ids[1] == RowsOf(db, q)[1].id;
    GroupsAt(db, q, 0);
  }

  /** When two groups are tied, account 1 lists them as account 2's row delivers them and not as its own rows do. */
  lemma {:induction false} BatchOrderDiffers(ts: seq<OrderTerm<GroupRow>>, a: GroupRow, b: GroupRow, db: Database, q: Plan)
    requires a.id != b.id && Le(ts, a, b) && Le(ts, b, a)
    requires db == TwoAccounts(MixedRows(a, b)) && q == WithOrderedGroups(ts)
    ensures ValidDatabase(db) && |Batched(db, q)| == |Naive(db, q)| == 2
    ensures Batched(db, q)[0].groups == [b, a] && Naive(db, q)[0].groups == [a, b]
  {
    MixedValid(db, a, b);
    TwoSelected(MixedRows(a, b), q);
    MixedJoined(ts, a, b);
    Differ(db, q, GroupsQuery(LeafQuery([], ts, None, None), []), a, b);
  }

  lemma {:induction false} Differ(db: Database, q: Plan, g: GroupsQuery, a: GroupRow, b: GroupRow)
    requires a.id != b.id && db.groupJoin == MixedRows(a, b) && q.withGroups == Some(g)
    requires |RowsOf(db, q)| == 2 && Map(IdOf(), RowsOf(db, q)) == [1, 2]
    requires |Selected(db, q)| == 2 && Selected(db, q)[0].id == 1
    requires JoinedRows(db.groupJoin, AddJoin(g, [1, 2])) == MixedRows(a, b)
    requires LeafRows(db.groupJoin, LeafWhere(Lifted(g.asked), JoinedIs(1))) == Filter(JoinedIs(1), MixedRows(a, b))
    ensures |Batched(db, q)| == |Naive(db, q)| == 2
    ensures Batched(db, q)[0].groups == [b, a] && Naive(db, q)[0].groups == [a, b]
  {
    var joined := MixedRows(a, b);
    var own := Filter(JoinedIs(1), joined);
    MixedBatch(a, b);
    MixedAlone(a, b);
    FirstGroups(db, q, g, joined, own, [b, a], [a, b]);
  }

  lemma {:induction false} MixedValid(db: Database, a: GroupRow, b: GroupRow)
    requires a.id != b.id && db == TwoAccounts(MixedRows(a, b))
    ensures ValidDatabase(db)
  {
    assert db.groupJoin == MixedRows(a, b);
  }

  lemma {:induction false} MixedJoined(ts: seq<OrderTerm<GroupRow>>, a: GroupRow, b: GroupRow)
    requires Le(ts, a, b) && Le(ts, b, a)
    ensures var g := GroupsQuery(LeafQuery([], ts, None, None), []);
      && JoinedRows(MixedRows(a, b), AddJoin(g, [1, 2])) == MixedRows(a, b)
      && LeafRows(MixedRows(a, b), LeafWhere(Lifted(g.asked), JoinedIs(1))) == Filter(JoinedIs(1), MixedRows(a, b))
  {
    FirstJoin(MixedRows(a, b), GroupsQuery(LeafQuery([], ts, None, None), []), [1, 2]);
    TiedRows(ts, a, b);
  }

  /** The batch lists groups as the naive join does, on every database, exactly when no two groups are tied. */
  lemma GroupOrderDecides(ts: seq<OrderTerm<GroupRow>>)
    ensures (forall db | ValidDatabase(db) :: Batched(db, WithOrderedGroups(ts)) == Naive(db, WithOrderedGroups(ts)))
       <==> Separates(ts)
  {
    if Separates(ts) {
      forall db | ValidDatabase(db) ensures Batched(db, WithOrderedGroups(ts)) == Naive(db, WithOrderedGroups(ts)) {
        SelectedPlain(db, WithOrderedGroups(ts));
        BatchedIsNaive(db, WithOrderedGroups(ts));
      }
    } else {
      var a: GroupRow, b: GroupRow :| Le(ts, a, b) && Le(ts, b, a) && a.id != b.id;
      BatchOrderDiffers(ts, a, b, TwoAccounts(MixedRows(a, b)), WithOrderedGroups(ts));
    }
  }
}
