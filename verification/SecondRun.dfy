/** Running the same builder again.  The loads append their key filters to the sub-queries in place, and the filters
    stay there; so does the join of a groups sub-query, which is no filter: behind a second one the run panics on the
    first row. */
module SecondRun {
  import opened Relational
  import opened EagerLoading
  import opened BatchingCorrect
  import opened LoadedEdges
  import opened QueryPaths
  import opened Sealing

  /** The extra predicates of a2 reject no row that a1 accepts. */
  ghost predicate SameSelection<R(!new)>(a1: seq<R -> bool>, a2: seq<R -> bool>) {
    forall x :: All(a1)(x) == All(a2)(x)
  }

  lemma SameLeafRows<R>(table: seq<R>, q: LeafQuery<R>, p: R -> bool)
    ensures LeafRows(table, LeafWhere(LeafWhere(q, p), p)) == LeafRows(table, LeafWhere(q, p))
  {
    forall x | x in table ensures All(q.preds + [p] + [p])(x) == All(q.preds + [p])(x) {
      AllSnoc(q.preds + [p], p, x);
      AllSnoc(q.preds, p, x);
    }
    FilterAgree(All(q.preds + [p] + [p]), All(q.preds + [p]), table);
  }

  /** Asking twice for the same keys selects what asking once selects. */
  lemma TwiceIsOnce(q: Plan, p: AccountRow -> bool)
    ensures SameSelection(Where(q, p).preds, Where(Where(q, p), p).preds)
  {
    forall x ensures All(q.preds + [p] + [p])(x) == All(q.preds + [p])(x) {
      AllSnoc(q.preds + [p], p, x);
      AllSnoc(q.preds, p, x);
    }
  }

  lemma {:induction false} RowsAgree(db: Database, q: Plan, a: Plan)
    requires a == After(db, q).(preds := a.preds) && SameSelection(q.preds, a.preds)
    ensures RowsOf(db, a) == RowsOf(db, q)
  {
    assert a == q.(preds := a.preds, withGroups := a.withGroups, withProxy := a.withProxy, withParent := a.withParent,
                   withChildren := a.withChildren, withUsageLogs := a.withUsageLogs);
    assert LoadedFlags(a) == LoadedFlags(q);
    RowsIgnoreLoads(db, q, a);
  }

  /** The rows of a query do not depend on its sub-queries, only on which of them it has. */
  lemma RowsIgnoreLoads(db: Database, q: Plan, a: Plan)
    requires a == q.(preds := a.preds, withGroups := a.withGroups, withProxy := a.withProxy, withParent := a.withParent,
                     withChildren := a.withChildren, withUsageLogs := a.withUsageLogs)
    requires LoadedFlags(a) == LoadedFlags(q) && SameSelection(q.preds, a.preds)
    ensures RowsOf(db, a) == RowsOf(db, q)
  {
    FilterAgree(All(a.preds), All(q.preds), Source(db, q));
    assert Columns(a) == Columns(q);
  }

  // ----- the joins of groups sub-queries -----

  /** How many rows there are decides whether a sub-query delivers one: a limit never cuts the first. */
  lemma {:induction false} DeliversNone<R>(table: seq<R>, q: LeafQuery<R>)
    ensures LeafRows(table, q) == [] <==> |Filter(All(q.preds), table)| <= SpecOffset(q.offset)
  {
    var kept := Filter(All(q.preds), table);
    SortCorrect(q.order, kept);
    assert |multiset(Sort(q.order, kept))| == |multiset(kept)|;
  }

  /** A test of the group alone. */
  ghost predicate OfGroup(p: JoinRow -> bool) { forall j: JoinRow, k: JoinRow | j.group == k.group :: p(j) == p(k) }

  lemma LiftedOfGroup(q: LeafQuery<GroupRow>)
    ensures OfGroup(All(Lifted(q).preds))
  {
    forall j: JoinRow, k: JoinRow | j.group == k.group ensures All(Lifted(q).preds)(j) == All(Lifted(q).preds)(k) {
      assert forall i | 0 <= i < |q.preds| :: Lifted(q).preds[i](j) == q.preds[i](j.group) == Lifted(q).preds[i](k);
    }
  }

  /** Joining rows to a table with rows of each of their groups loses none of them. */
  lemma {:induction false} RejoinedGrows(p: JoinRow -> bool, ws: seq<JoinRow>, js: seq<JoinRow>)
    requires OfGroup(p) && forall w | w in ws :: HasPartner(w, js)
    ensures |Filter(p, Rejoined(ws, js))| >= |Filter(p, ws)|
    decreases |ws|
  {
    if ws != [] {
      var init, w := ws[..|ws| - 1], ws[|ws| - 1];
      var f := (j: JoinRow) => JoinRow(j.accountId, w.group);
      var own := Map(f, Filter(SameGroup(w), js));
      assert w in ws && forall x | x in init :: x in ws;
      RejoinedGrows(p, init, js);
      FilterConcat(p, Rejoined(init, js), own);
      var j :| j in js && SameGroup(w)(j);
      FilterIn(SameGroup(w), js, j);
      assert |own| > 0;
      if p(w) {
        forall x | x in own ensures p(x) { assert x.group == w.group; }
        FilterAll(p, own);
      }
    }
  }

  ghost predicate HasPartner(w: JoinRow, js: seq<JoinRow>) { exists j | j in js :: SameGroup(w)(j) }

  lemma {:induction false} RejoinedFrom(ws: seq<JoinRow>, js: seq<JoinRow>, x: JoinRow)
    requires x in Rejoined(ws, js)
    ensures HasPartner(x, js) && exists w | w in ws :: w.group == x.group
    decreases |ws|
  {
    var init, w := ws[..|ws| - 1], ws[|ws| - 1];
    var own := Filter(SameGroup(w), js);
    var mapped := Map((j: JoinRow) => JoinRow(j.accountId, w.group), own);
    assert w in ws && forall y | y in init :: y in ws;
    if x in Rejoined(init, js) {
      RejoinedFrom(init, js, x);
    } else {
      var i :| 0 <= i < |mapped| && mapped[i] == x;
      assert own[i] in own;
      FilterIn(SameGroup(w), js, own[i]);
      assert SameGroup(x)(own[i]);
    }
  }

  /** Every row under some joins has a row of its group among those of the last. */
  lemma {:induction false} WidePartner(table: seq<JoinRow>, joins: seq<seq<int>>, ids: seq<int>, w: JoinRow)
    requires w in Wide(table, joins + [ids])
    ensures HasPartner(w, Filter(JoinedIn(ids), table))
  {
    assert (joins + [ids])[..|joins|] == joins;
    if joins != [] { RejoinedFrom(Wide(table, joins), Filter(JoinedIn(ids), table), w); } else { assert SameGroup(w)(w); }
  }

  lemma {:induction false} WideTwice(table: seq<JoinRow>, joins: seq<seq<int>>, ids: seq<int>)
    ensures Wide(table, joins + [ids] + [ids]) == Rejoined(Wide(table, joins + [ids]), Filter(JoinedIn(ids), table))
  {
    assert (joins + [ids] + [ids])[..|joins| + 1] == joins + [ids];
  }

  /** What another join of the same ids leaves empty was empty before; if nothing is skipped, the converse holds. */
  lemma SecondJoin(table: seq<JoinRow>, g: GroupsQuery, ids: seq<int>)
    ensures JoinedRows(table, AddJoin(AddJoin(g, ids), ids)) == [] ==> JoinedRows(table, AddJoin(g, ids)) == []
    ensures SpecOffset(g.asked.offset) == 0 ==>
              (JoinedRows(table, AddJoin(AddJoin(g, ids), ids)) == [] <==> JoinedRows(table, AddJoin(g, ids)) == [])
  {
    var own, once, q := Filter(JoinedIn(ids), table), Wide(table, g.joins + [ids]), Lifted(g.asked);
    var twice, p := Rejoined(once, own), All(q.preds);
    WideTwice(table, g.joins, ids);
    LiftedOfGroup(g.asked);
    forall w | w in once ensures HasPartner(w, own) { WidePartner(table, g.joins, ids, w); }
    RejoinedGrows(p, once, own);
    DeliversNone(once, q);
    DeliversNone(twice, q);
    if Filter(p, once) == [] {
      forall x | x in twice ensures !p(x) {
        RejoinedFrom(once, own, x);
        var w :| w in once && w.group == x.group;
        FilterIn(p, once, w);
      }
      FilterNone(p, twice);
    }
  }

  // ----- running again -----

  /** What the account loads ask for. */
  function ParentSub(q: Plan, rows: seq<AccountRow>): Plan
    requires q.withParent.Some?
  {
    Where(q.withParent.value, IdIn(Keys(ParentOf(), rows)))
  }

  function ChildrenSub(q: Plan, rows: seq<AccountRow>): Plan
    requires q.withChildren.Some?
  {
    Where(KeepParentColumn(q.withChildren.value), ParentIn(Map(IdOf(), rows)))
  }

  /** At some depth that the run of q reaches, a groups sub-query delivers a row under a second join. */
  predicate Rejoins(db: Database, q: Plan)
    decreases Height(q)
  {
    var rows := RowsOf(db, q);
    var ids := Map(IdOf(), rows);
    && rows != []
    && (|| (q.withGroups.Some? && JoinedRows(db.groupJoin, AddJoin(AddJoin(q.withGroups.value, ids), ids)) != [])
        || (q.withParent.Some? && Keys(ParentOf(), rows) != []
              && Rejoins(db, Where(q.withParent.value, IdIn(Keys(ParentOf(), rows)))))
        || (q.withChildren.Some? && Rejoins(db, Where(KeepParentColumn(q.withChildren.value), ParentIn(ids)))))
  }

  /** At some depth that the run of q reaches, a groups sub-query delivers a row. */
  predicate Delivers(db: Database, q: Plan)
    decreases Height(q)
  {
    var rows := RowsOf(db, q);
    var ids := Map(IdOf(), rows);
    && rows != []
    && (|| (q.withGroups.Some? && JoinedRows(db.groupJoin, AddJoin(q.withGroups.value, ids)) != [])
        || (q.withParent.Some? && Keys(ParentOf(), rows) != []
              && Delivers(db, Where(q.withParent.value, IdIn(Keys(ParentOf(), rows)))))
        || (q.withChildren.Some? && Delivers(db, Where(KeepParentColumn(q.withChildren.value), ParentIn(ids)))))
  }

  /** The query and every account query below it satisfy p. */
  predicate AllLevels(p: Plan -> bool, q: Plan)
    decreases Height(q)
  {
    && p(q)
    && (q.withParent.Some? ==> AllLevels(p, q.withParent.value))
    && (q.withChildren.Some? ==> AllLevels(p, q.withChildren.value))
  }

  /** p does not look at predicates and selected columns, and holds of what a run leaves behind. */
  ghost predicate Survives(p: Plan -> bool, db: Database) {
    forall k {:trigger Open(Levels, k)} :: Open(Levels, k) ==>
      && (forall q: Plan, a: Plan | a == q.(preds := a.preds, fields := a.fields) && p(q) :: p(a))
      && forall q | p(q) :: p(After(db, q))
  }

  lemma {:induction false} SurvivesRun(p: Plan -> bool, db: Database, q: Plan)
    requires Survives(p, db) && p(q)
    ensures p(After(db, q))
  {
    assert Open(Levels, 0);
  }

  lemma {:induction false} AllLevelsKept(p: Plan -> bool, db: Database, sub: Plan, q: Plan)
    requires sub == q.(preds := sub.preds, fields := sub.fields) && Survives(p, db) && AllLevels(p, q)
    ensures AllLevels(p, sub)
  {
    assert Open(Levels, 0);
  }

  lemma {:induction false} AllLevelsAfter(p: Plan -> bool, db: Database, q: Plan)
    requires AllLevels(p, q) && Survives(p, db)
    ensures AllLevels(p, After(db, q))
    decreases Height(q)
  {
    var rows := RowsOf(db, q);
    SurvivesRun(p, db, q);
    if q.withParent.Some? {
      AllLevelsKept(p, db, ParentSub(q, rows), q.withParent.value);
      AllLevelsAfter(p, db, ParentSub(q, rows));
    }
    if q.withChildren.Some? {
      AllLevelsKept(p, db, ChildrenSub(q, rows), q.withChildren.value);
      AllLevelsAfter(p, db, ChildrenSub(q, rows));
    }
    AfterSubs(db, q, rows);
    LevelsFrom(p, q, After(db, q));
  }

  lemma {:induction false} AfterSubs(db: Database, q: Plan, rows: seq<AccountRow>)
    requires rows == RowsOf(db, q)
    ensures After(db, q).withParent
         == if q.withParent.None? || rows == [] || Keys(ParentOf(), rows) == [] then q.withParent
            else Some(After(db, ParentSub(q, rows)))
    ensures After(db, q).withChildren
         == if q.withChildren.None? || rows == [] then q.withChildren else Some(After(db, ChildrenSub(q, rows)))
  {
  }

  lemma {:induction false} LevelsFrom(p: Plan -> bool, q: Plan, a: Plan)
    requires p(a) && AllLevels(p, q)
    requires a.withParent == q.withParent || (a.withParent.Some? && AllLevels(p, a.withParent.value))
    requires a.withChildren == q.withChildren || (a.withChildren.Some? && AllLevels(p, a.withChildren.value))
    ensures AllLevels(p, a)
  {
  }

  function SkipsNoGroups(): Plan -> bool {
    (q: Plan) => q.withGroups.Some? ==> SpecOffset(q.withGroups.value.asked.offset) == 0
  }

  lemma SkipsSurvive(db: Database)
    ensures Survives(SkipsNoGroups(), db)
  {
  }

  /** No groups sub-query skips rows. */
  predicate GroupsUnskipped(q: Plan) { AllLevels(SkipsNoGroups(), q) }

  /** Calls on a builder leave no join behind. */
  lemma {:induction false} CallsJoinNothing(q: Plan, ops: seq<Op>)
    requires Unjoined(q)
    ensures Unjoined(Steps(q, ops))
    decreases ops
  {
    if ops != [] {
      var op := ops[|ops| - 1];
      CallsJoinNothing(q, ops[..|ops| - 1]);
      if op.WithParentOp? || op.WithChildrenOp? { CallsJoinNothing(EmptyPlan, op.opts); }
      StepJoinsNothing(Steps(q, ops[..|ops| - 1]), op);
    }
  }

  lemma {:induction false} StepJoinsNothing(q: Plan, op: Op)
    requires Unjoined(q) && (op.WithParentOp? || op.WithChildrenOp? ==> Unjoined(Steps(EmptyPlan, op.opts)))
    ensures Unjoined(Step(q, op))
  {
  }

  /** So the first run of a builder does not panic, whatever calls were made on it. */
  lemma {:induction false} NewBuilderReturns(db: Database, source: Option<seq<AccountRow>>, ops: seq<Op>)
    ensures var q := Steps(EmptyPlan.(source := source), ops); Unjoined(q) && Run(db, q) == Returned(Batched(db, q))
  {
    CallsJoinNothing(EmptyPlan.(source := source), ops);
    FirstRunReturns(db, Steps(EmptyPlan.(source := source), ops));
  }

  lemma {:induction false} FirstRunReturns(db: Database, q: Plan)
    requires Unjoined(q)
    ensures !Panics(db, q)
    decreases Height(q)
  {
    var rows := RowsOf(db, q);
    if q.withParent.Some? { FirstRunReturns(db, Where(q.withParent.value, IdIn(Keys(ParentOf(), rows)))); }
    if q.withChildren.Some? {
      FirstRunReturns(db, Where(KeepParentColumn(q.withChildren.value), ParentIn(Map(IdOf(), rows))));
    }
  }

  lemma {:induction false} RejoinsDelivered(db: Database, q: Plan)
    ensures Delivers(db, q) ==> Rejoins(db, q)
    ensures GroupsUnskipped(q) ==> (Rejoins(db, q) <==> Delivers(db, q))
    decreases Height(q)
  {
    var rows := RowsOf(db, q);
    var ids := Map(IdOf(), rows);
    SkipsSurvive(db);
    if q.withGroups.Some? { SecondJoin(db.groupJoin, q.withGroups.value, ids); }
    if q.withParent.Some? {
      var sub := Where(q.withParent.value, IdIn(Keys(ParentOf(), rows)));
      if GroupsUnskipped(q) { AllLevelsKept(SkipsNoGroups(), db, sub, q.withParent.value); }
      RejoinsDelivered(db, sub);
    }
    if q.withChildren.Some? {
      var sub := Where(KeepParentColumn(q.withChildren.value), ParentIn(ids));
      if GroupsUnskipped(q) { AllLevelsKept(SkipsNoGroups(), db, sub, q.withChildren.value); }
      RejoinsDelivered(db, sub);
    }
  }

  /** The builder a run leaves behind, with or without repeated filters, panics where a groups sub-query delivers a
      row under a second join, and otherwise computes the same result. */
  lemma {:induction false} RunAgain(db: Database, q: Plan, a: Plan)
    requires a == After(db, q).(preds := a.preds) && SameSelection(q.preds, a.preds)
    ensures (Panics(db, a) <==> Rejoins(db, q)) && (Delivers(db, a) <==> Rejoins(db, q))
    ensures !Rejoins(db, q) ==> Batched(db, a) == Batched(db, q)
    decreases Height(q), 2
  {
    var rows := RowsOf(db, q);
    RowsAgree(db, q, a);
    if rows != [] {
      SubRunsAgain(db, q, rows, After(db, q));
      PanicsAgain(db, q, rows, a);
      if !Rejoins(db, q) { ReturnsAgain(db, q, rows, a); }
    } else {
      NoRows(db, a);
      NoRows(db, q);
    }
  }

  lemma {:induction false} ReturnsAgain(db: Database, q: Plan, rows: seq<AccountRow>, a: Plan)
    requires rows == RowsOf(db, q) == RowsOf(db, a) && rows != [] && a == After(db, q).(preds := a.preds)
    requires !Rejoins(db, q) && SubRuns(db, q, rows, After(db, q))
    ensures Batched(db, a) == Batched(db, q)
  {
    GroupsAgain(db, q, rows, After(db, q));
    BatchIgnoresPreds(db, a, After(db, q), rows);
    SameBatch(db, q, a);
  }

  lemma {:induction false} PanicsAgain(db: Database, q: Plan, rows: seq<AccountRow>, a: Plan)
    requires rows == RowsOf(db, q) == RowsOf(db, a) && rows != [] && a == After(db, q).(preds := a.preds)
    requires SubRuns(db, q, rows, After(db, q))
    ensures (Panics(db, a) <==> Rejoins(db, q)) && (Delivers(db, a) <==> Rejoins(db, q))
  {
    if q.withGroups.Some? { assert a.withGroups.value == AddJoin(q.withGroups.value, Map(IdOf(), rows)); }
  }

  lemma {:induction false} GroupsAgain(db: Database, q: Plan, rows: seq<AccountRow>, a: Plan)
    requires rows == RowsOf(db, q) && rows != [] && a == After(db, q) && !Rejoins(db, q)
    requires SubRuns(db, q, rows, a)
    ensures Batch(db, a, rows) == Batch(db, q, rows)
  {
    if q.withGroups.Some? { SecondJoin(db.groupJoin, q.withGroups.value, Map(IdOf(), rows)); }
    LeavesAgain(db, q, rows, a);
  }

  lemma {:induction false} NoRows(db: Database, q: Plan)
    requires RowsOf(db, q) == []
    ensures Batched(db, q) == []
  {
  }

  lemma {:induction false} BatchIgnoresPreds(db: Database, a: Plan, b: Plan, rows: seq<AccountRow>)
    requires a == b.(preds := a.preds)
    ensures Batch(db, a, rows) == Batch(db, b, rows)
  {
  }

  lemma {:induction false} SameBatch(db: Database, q: Plan, a: Plan)
    requires RowsOf(db, a) == RowsOf(db, q) && LoadedFlags(a) == LoadedFlags(q)
    requires Batch(db, a, RowsOf(db, q)) == Batch(db, q, RowsOf(db, q))
    ensures Batched(db, a) == Batched(db, q)
  {
    var rows := RowsOf(db, q);
    forall i | 0 <= i < |rows| ensures Batched(db, a)[i] == Batched(db, q)[i] {
      SpreadAgain(q, a, rows, Batch(db, q, rows), i);
    }
  }

  lemma SpreadAgain(q: Plan, a: Plan, rows: seq<AccountRow>, ns: Neighbors, i: nat)
    requires LoadedFlags(a) == LoadedFlags(q) && i < |rows|
    ensures Spread(a, rows, ns, i) == Spread(q, rows, ns, i)
  {
  }

  lemma {:induction false} LeavesAgain(db: Database, q: Plan, rows: seq<AccountRow>, a: Plan)
    requires a == After(db, q) && rows == RowsOf(db, q) && rows != []
    ensures Batch(db, a, rows).proxies == Batch(db, q, rows).proxies
    ensures Batch(db, a, rows).usageLogs == Batch(db, q, rows).usageLogs
  {
    var ids := Map(IdOf(), rows);
    if q.withProxy.Some? { SameLeafRows(db.proxies, q.withProxy.value, ProxyIn(Keys(ProxyOf(), rows))); }
    if q.withUsageLogs.Some? { SameLeafRows(db.usageLogs, q.withUsageLogs.value, UsageIn(ids)); }
  }

  /** The account sub-queries of a panic where those of q rejoin, and otherwise answer the same. */
  ghost predicate SubRuns(db: Database, q: Plan, rows: seq<AccountRow>, a: Plan) {
    && LoadedFlags(a) == LoadedFlags(q)
    && (q.withParent.Some? && Keys(ParentOf(), rows) != [] ==>
          && (Panics(db, ParentSub(a, rows)) <==> Rejoins(db, ParentSub(q, rows)))
          && (Delivers(db, ParentSub(a, rows)) <==> Rejoins(db, ParentSub(q, rows)))
          && (!Rejoins(db, ParentSub(q, rows)) ==> Batched(db, ParentSub(a, rows)) == Batched(db, ParentSub(q, rows))))
    && (q.withParent.Some? && Keys(ParentOf(), rows) == [] ==> a.withParent == q.withParent)
    && (q.withChildren.Some? ==>
          && (Panics(db, ChildrenSub(a, rows)) <==> Rejoins(db, ChildrenSub(q, rows)))
          && (Delivers(db, ChildrenSub(a, rows)) <==> Rejoins(db, ChildrenSub(q, rows)))
          && (!Rejoins(db, ChildrenSub(q, rows)) ==> Batched(db, ChildrenSub(a, rows)) == Batched(db, ChildrenSub(q, rows))))
  }

  lemma {:induction false} SubRunsAgain(db: Database, q: Plan, rows: seq<AccountRow>, a: Plan)
    requires a == After(db, q) && rows == RowsOf(db, q) && rows != []
    ensures SubRuns(db, q, rows, a)
    decreases Height(q), 1
  {
    assert LoadedFlags(a) == LoadedFlags(q);
    var ks := Keys(ParentOf(), rows);
    if q.withParent.Some? && ks != [] { RunSubAgain(db, ParentSub(q, rows), q.withParent.value, IdIn(ks)); }
    if q.withChildren.Some? {
      var kept, p := KeepParentColumn(q.withChildren.value), ParentIn(Map(IdOf(), rows));
      RunSubAgain(db, ChildrenSub(q, rows), kept, p);
      KeptTwice(db, q.withChildren.value, p);
    }
  }

  lemma {:induction false} RunSubAgain(db: Database, sub: Plan, q: Plan, p: AccountRow -> bool)
    requires sub == Where(q, p)
    ensures Panics(db, Where(After(db, sub), p)) <==> Rejoins(db, sub)
    ensures Delivers(db, Where(After(db, sub), p)) <==> Rejoins(db, sub)
    ensures !Rejoins(db, sub) ==> Batched(db, Where(After(db, sub), p)) == Batched(db, sub)
    decreases Height(sub), 3
  {
    TwiceIsOnce(q, p);
    var a := Where(After(db, sub), p);
    assert After(db, sub).preds == sub.preds;
    RunAgain(db, sub, a);
  }

  lemma {:induction false} KeptTwice(db: Database, q: Plan, p: AccountRow -> bool)
    ensures var a := After(db, Where(KeepParentColumn(q), p)); KeepParentColumn(a) == a
  {
    var sub := Where(KeepParentColumn(q), p);
    assert After(db, sub).fields == sub.fields;
  }

  /** On an unchanged database another run returns what the last one did exactly when no groups sub-query delivers a row
      under another join; otherwise it panics.  A clone of the used builder asks for the same and fares the same. */
  lemma {:induction false} NextRun(db: Database, q: Plan)
    ensures Run(db, After(db, q)) == if Rejoins(db, q) then Panicked else Returned(Batched(db, q))
  {
    assert After(db, q).preds == q.preds;
    RunAgain(db, q, After(db, q));
  }

  /** So it is for the second run of a builder. */
  lemma {:induction false} SecondRunExact(db: Database, q: Plan)
    requires Unjoined(q)
    ensures Run(db, q) == Returned(Batched(db, q))
    ensures Run(db, After(db, q)) == if Rejoins(db, q) then Panicked else Run(db, q)
  {
    FirstRunReturns(db, q);
    NextRun(db, q);
  }

  /** Unless some groups sub-query skips rows, that is exactly when the first run delivered no group at any depth. */
  lemma {:induction false} SecondRunSame(db: Database, q: Plan)
    requires Unjoined(q) && GroupsUnskipped(q)
    ensures Run(db, After(db, q)) == Run(db, q) <==> !Delivers(db, q)
  {
    SecondRunExact(db, q);
    RejoinsDelivered(db, q);
  }

  /** The builder after n runs. */
  function Used(db: Database, q: Plan, n: nat): Plan { if n == 0 then q else After(db, Used(db, q, n - 1)) }

  /** The first n runs after the first return. */
  predicate StillReturns(db: Database, q: Plan, n: nat) {
    n == 0 || (StillReturns(db, q, n - 1) && !Rejoins(db, Used(db, q, n - 1)))
  }

  /** The run of q gives r; sealed. */
  ghost predicate Gives(db: Database, q: Plan, r: RunResult) {
    forall k {:trigger Open(Answers, k)} :: Open(Answers, k) ==> Run(db, q) == r
  }

  lemma {:induction false} NextGives(db: Database, q: Plan, a: Plan, r: RunResult)
    requires a == After(db, q) && Gives(db, q, r) && r.Returned?
    ensures Gives(db, a, if Rejoins(db, q) then Panicked else r)
  {
    assert Open(Answers, 0);
    NextRun(db, q);
  }

  lemma {:induction false} EveryGives(db: Database, q: Plan, n: nat, r: RunResult)
    requires Gives(db, q, r) && r.Returned? && StillReturns(db, q, n)
    ensures Gives(db, Used(db, q, n), r)
  {
    if n > 0 {
      EveryGives(db, q, n - 1, r);
      NextGives(db, Used(db, q, n - 1), Used(db, q, n), r);
    }
  }

  /** As long as the runs return they return the same, and the next one panics exactly when some groups sub-query
      delivers a row under one more join. */
  lemma {:induction false} EveryRun(db: Database, q: Plan, n: nat)
    requires Unjoined(q) && StillReturns(db, q, n)
    ensures Run(db, Used(db, q, n)) == Run(db, q)
    ensures Run(db, Used(db, q, n + 1)) == if Rejoins(db, Used(db, q, n)) then Panicked else Run(db, q)
  {
    FirstRunReturns(db, q);
    EveryGives(db, q, n, Run(db, q));
    NextGives(db, Used(db, q, n), Used(db, q, n + 1), Run(db, q));
    assert Open(Answers, 0);
  }

  /** Unless some groups sub-query skips rows, all runs return the same exactly when the first delivered no group. */
  lemma {:induction false} EveryRunSame(db: Database, q: Plan)
    requires Unjoined(q) && GroupsUnskipped(q)
    ensures (forall n: nat :: Run(db, Used(db, q, n)) == Run(db, q)) <==> !Delivers(db, q)
  {
    if Delivers(db, q) {
      SecondRunSame(db, q);
      UsedOnce(db, q);
    } else {
      forall n: nat ensures Run(db, Used(db, q, n)) == Run(db, q) { RunsStaySame(db, q, n); }
    }
  }

  lemma {:induction false} UsedOnce(db: Database, q: Plan)
    ensures Used(db, q, 1) == After(db, q)
  {
  }

  lemma {:induction false} RunsStaySame(db: Database, q: Plan, n: nat)
    requires Unjoined(q) && GroupsUnskipped(q) && !Delivers(db, q)
    ensures Run(db, Used(db, q, n)) == Run(db, q)
  {
    EmptyHanded(db, q, n);
    EveryRun(db, q, n);
  }

  /** No groups sub-query of q skips rows, and none delivers any; sealed. */
  ghost predicate DeliversNothing(db: Database, q: Plan) {
    forall k {:trigger Open(Answers, k)} :: Open(Answers, k) ==> GroupsUnskipped(q) && !Delivers(db, q)
  }

  lemma {:induction false} EmptyHanded(db: Database, q: Plan, n: nat)
    requires DeliversNothing(db, q)
    ensures DeliversNothing(db, Used(db, q, n)) && StillReturns(db, q, n)
  {
    if n > 0 {
      EmptyHanded(db, q, n - 1);
      NextEmptyHanded(db, Used(db, q, n - 1), Used(db, q, n));
    }
  }

  lemma {:induction false} NextEmptyHanded(db: Database, q: Plan, a: Plan)
    requires DeliversNothing(db, q) && a == After(db, q)
    ensures !Rejoins(db, q) && DeliversNothing(db, a)
  {
    assert Open(Answers, 0);
    RejoinsDelivered(db, q);
    SkipsSurvive(db);
    AllLevelsAfter(SkipsNoGroups(), db, q);
    assert a.preds == q.preds;
    RunAgain(db, q, a);
  }

  const WithGroups := EmptyPlan.(withGroups := Some(GroupsQuery(LeafQuery([], [], None, None), [])))

  /** One account with one group. */
  function OneMember(g: GroupRow): Database { Database([Elder(1)], [], [], [JoinRow(1, g)]) }

  lemma OneMemberRows(g: GroupRow)
    ensures RowsOf(OneMember(g), WithGroups) == [Elder(1)]
    ensures JoinedRows([JoinRow(1, g)], AddJoin(WithGroups.withGroups.value, [1])) == [JoinRow(1, g)]
  {
    EveryElder(g);
    var q := GroupsQuery(LeafQuery([], [], None, None), []);
    assert AddJoin(q, [1]).joins == [[1]];
    FilterAll(JoinedIn([1]), [JoinRow(1, g)]);
    assert Lifted(q.asked).preds == [] && Lifted(q.asked).order == [];
    FilterAll(All([]), [JoinRow(1, g)]);
    SortUnordered([JoinRow(1, g)]);
  }

  lemma EveryElder(g: GroupRow)
    ensures RowsOf(OneMember(g), WithGroups) == [Elder(1)]
  {
    FilterAll(All([]), [Elder(1)]);
    SortUnordered([Elder(1)]);
  }

  /** Loading the groups of one account with one group twice: the second run panics. */
  lemma SecondRunPanics(g: GroupRow)
    ensures var db := OneMember(g);
      Run(db, WithGroups) == Returned(Batched(db, WithGroups)) && Run(db, After(db, WithGroups)) == Panicked
  {
    OneMemberRows(g);
    var db, ids := OneMember(g), Map(IdOf(), [Elder(1)]);
    assert ids == [1];
    assert Delivers(db, WithGroups);
    SecondRunSame(db, WithGroups);
    SecondRunExact(db, WithGroups);
  }

  // ----- a changed database -----

  function ParentRow(t: Tree): Option<AccountRow> {
    if t.parent.Some? then Some(t.parent.value.row) else None
  }

  /** After a run on db1 a second run on db2, if it returns, still finds the parents whose keys the first run asked for,
      and no others. */
  lemma {:induction false} SecondRunParents(db1: Database, db2: Database, q: Plan, i: nat)
    requires Run(db2, After(db1, q)).Returned?
    requires q.withParent.Some? && PlainSub(q.withParent.value)
    requires KeysDiffer(IdOf(), db2.accounts)
    requires Keys(ParentOf(), RowsOf(db1, q)) != [] && i < |Batched(db2, q)|
    ensures |Batched(db2, After(db1, q))| == |Batched(db2, q)|
    ensures var key := Selected(db2, q)[i].parentId;
      ParentRow(Batched(db2, After(db1, q))[i])
      == if key.Some? && key.value !in Keys(ParentOf(), RowsOf(db1, q)) then None else ParentRow(Batched(db2, q)[i])
  {
    var a, pq, asked, rows := After(db1, q), q.withParent.value, Keys(ParentOf(), RowsOf(db1, q)), RowsOf(db2, q);
    RowsAgreeOn(db1, db2, q);
    ParentAt(db2, q, i);
    ParentAt(db2, a, i);
    BatchedIds(db2, q, i);
    RowKeepsParent(q, Selected(db2, q), i);
    if rows[i].parentId.Some? {
      assert rows[i] in rows;
      KeyIn(ParentOf(), rows, rows[i]);
      SecondParent(db1, db2, pq, asked, Keys(ParentOf(), rows), rows[i].parentId.value);
    }
  }

  /** What narrowing to a key finds among the rows of a query that was narrowed to other keys before. */
  lemma AskedBefore<R>(table: seq<R>, lq: LeafQuery<R>, first: R -> bool, second: R -> bool, own: R -> bool, asked: bool)
    requires Unpaged(lq.limit, lq.offset) && forall x | own(x) :: first(x) == asked && second(x)
    ensures Filter(own, LeafRows(table, LeafWhere(LeafWhere(lq, first), second)))
         == if asked then Filter(own, LeafRows(table, LeafWhere(lq, second))) else []
  {
    LeafNarrow(table, lq, second, own, own);
    LeafNarrow(table, LeafWhere(lq, first), second, own, own);
    LeafAsked(table, lq, first, own, asked);
  }

  lemma LeafAsked<R>(table: seq<R>, lq: LeafQuery<R>, first: R -> bool, own: R -> bool, asked: bool)
    requires forall x | own(x) :: first(x) == asked
    ensures LeafRows(table, LeafWhere(LeafWhere(lq, first), own)) == if asked then LeafRows(table, LeafWhere(lq, own)) else []
  {
    AskedRows(table, lq.preds, first, own, asked);
  }

  lemma {:induction false} AskedRows<R>(table: seq<R>, ps: seq<R -> bool>, first: R -> bool, own: R -> bool, asked: bool)
    requires forall x | own(x) :: first(x) == asked
    ensures Filter(All(ps + [first] + [own]), table) == if asked then Filter(All(ps + [own]), table) else []
  {
    forall x ensures All(ps + [first] + [own])(x) == (asked && All(ps + [own])(x)) {
      AllSnoc(ps + [first], own, x);
      AllSnoc(ps, first, x);
      AllSnoc(ps, own, x);
    }
    if asked {
      FilterAgree(All(ps + [first] + [own]), All(ps + [own]), table);
    } else {
      FilterNone(All(ps + [first] + [own]), table);
    }
  }

  /** So are usage logs: those of the accounts that the first run found, and no others. */
  lemma {:induction false} SecondRunLogs(db1: Database, db2: Database, q: Plan, lq: LeafQuery<UsageRow>, i: nat)
    requires Run(db2, After(db1, q)).Returned?
    requires q.withUsageLogs == Some(lq) && Unpaged(lq.limit, lq.offset)
    requires RowsOf(db1, q) != [] && i < |Batched(db2, q)|
    ensures |Batched(db2, After(db1, q))| == |Batched(db2, q)|
    ensures Batched(db2, After(db1, q))[i].usageLogs
         == if RowsOf(db2, q)[i].id in Map(IdOf(), RowsOf(db1, q)) then Batched(db2, q)[i].usageLogs else []
  {
    var a, rows, asked := After(db1, q), RowsOf(db2, q), Map(IdOf(), RowsOf(db1, q));
    var ids, id := Map(IdOf(), rows), rows[i].id;
    RowsAgreeOn(db1, db2, q);
    LogsAt(db2, q, i);
    LogsAt(db2, a, i);
    assert ids[i] == id;
    AskedBefore(db2.usageLogs, lq, UsageIn(asked), UsageIn(ids), UsageIs(id), id in asked);
  }

  /** And proxies: those whose keys the first run asked for. */
  lemma {:induction false} SecondRunProxies(db1: Database, db2: Database, q: Plan, lq: LeafQuery<ProxyRow>, i: nat, k: int)
    requires Run(db2, After(db1, q)).Returned?
    requires q.withProxy == Some(lq) && Unpaged(lq.limit, lq.offset)
    requires Keys(ProxyOf(), RowsOf(db1, q)) != [] && i < |Batched(db2, q)| && RowsOf(db2, q)[i].proxyId == Some(k)
    ensures |Batched(db2, After(db1, q))| == |Batched(db2, q)|
    ensures Batched(db2, After(db1, q))[i].proxy
         == if k in Keys(ProxyOf(), RowsOf(db1, q)) then Batched(db2, q)[i].proxy else None
  {
    var a, rows, asked := After(db1, q), RowsOf(db2, q), Keys(ProxyOf(), RowsOf(db1, q));
    var ks := Keys(ProxyOf(), rows);
    RowsAgreeOn(db1, db2, q);
    ProxyAt(db2, q, i, k);
    ProxyAt(db2, a, i, k);
    assert rows[i] in rows;
    KeyIn(ProxyOf(), rows, rows[i]);
    AskedBefore(db2.proxies, lq, ProxyIn(asked), ProxyIn(ks), ProxyIs(k), k in asked);
    FindLastIsLast(ProxyIs(k), LeafRows(db2.proxies, LeafWhere(lq, ProxyIn(ks))));
    FindLastIsLast(ProxyIs(k), LeafRows(db2.proxies, LeafWhere(LeafWhere(lq, ProxyIn(asked)), ProxyIn(ks))));
  }

  /** Groups are not: a second run that returns has found none, if the first one found any account. */
  lemma {:induction false} SecondRunGroups(db1: Database, db2: Database, q: Plan, i: nat)
    requires Run(db2, After(db1, q)).Returned? && q.withGroups.Some? && RowsOf(db1, q) != [] && i < |Batched(db2, q)|
    ensures |Batched(db2, After(db1, q))| == |Batched(db2, q)| && Batched(db2, After(db1, q))[i].groups == []
  {
    RowsAgreeOn(db1, db2, q);
    assert GroupsOf([], RowsOf(db2, q)[i].id) == [];
  }

  lemma {:induction false} RowsAgreeOn(db1: Database, db2: Database, q: Plan)
    ensures Selected(db2, After(db1, q)) == Selected(db2, q)
    ensures RowsOf(db2, After(db1, q)) == RowsOf(db2, q)
  {
    assert Columns(After(db1, q)) == Columns(q);
  }

  lemma {:induction false} SecondParent(db1: Database, db2: Database, pq: Plan, asked: seq<int>, ks: seq<int>, k: int)
    requires PlainSub(pq) && KeysDiffer(IdOf(), db2.accounts) && k in ks
    ensures var p := FindLast(TreeIdIs(k), Batched(db2, Where(pq, IdIn(ks))));
      var p' := FindLast(TreeIdIs(k), Batched(db2, Where(After(db1, Where(pq, IdIn(asked))), IdIn(ks))));
      if k in asked then p.Some? == p'.Some? && (p.Some? ==> p.value.row == p'.value.row) else p'.None?
  {
    var a := After(db1, Where(pq, IdIn(asked)));
    var p, p' := FindLast(TreeIdIs(k), Batched(db2, Where(pq, IdIn(ks)))), FindLast(TreeIdIs(k), Batched(db2, Where(a, IdIn(ks))));
    SubAfter(db1, pq, asked);
    ParentFound(db2, pq, ks, k);
    ParentFound(db2, a, ks, k);
    forall x ensures IsAccount(db2, a, k, x) <==> IsAccount(db2, pq, k, x) && k in asked {
      AllSnoc(pq.preds, IdIn(asked), x);
    }
    if p.Some? && p'.Some? {
      var x :| IsAccount(db2, pq, k, x) && p.value.row == Project(Columns(pq))(x);
      var y :| IsAccount(db2, a, k, y) && p'.value.row == Project(Columns(pq))(y);
      SameRow(db2.accounts, x, y);
    }
  }

  lemma {:induction false} SubAfter(db: Database, pq: Plan, asked: seq<int>)
    ensures var a := After(db, Where(pq, IdIn(asked)));
      a.preds == pq.preds + [IdIn(asked)] && Columns(a) == Columns(pq) && (PlainSub(pq) ==> PlainSub(a))
  {
  }

  function HasNoGroups(): Plan -> bool { (q: Plan) => q.withGroups.None? }

  lemma NoGroupsSurvives(db: Database)
    ensures Survives(HasNoGroups(), db)
  {
  }

  predicate Groupless(q: Plan) { AllLevels(HasNoGroups(), q) }

  /** Without groups, no run panics, whatever runs came before. */
  lemma {:induction false} GrouplessReturns(db: Database, q: Plan)
    requires Groupless(q)
    ensures !Panics(db, q)
    decreases Height(q)
  {
    var rows := RowsOf(db, q);
    NoGroupsSurvives(db);
    if q.withParent.Some? {
      AllLevelsKept(HasNoGroups(), db, ParentSub(q, rows), q.withParent.value);
      GrouplessReturns(db, ParentSub(q, rows));
    }
    if q.withChildren.Some? {
      AllLevelsKept(HasNoGroups(), db, ChildrenSub(q, rows), q.withChildren.value);
      GrouplessReturns(db, ChildrenSub(q, rows));
    }
  }

  function Child(parent: int): AccountRow { AccountRow(1, None, Some(parent), map[]) }
  function Elder(id: int): AccountRow { AccountRow(id, None, None, map[]) }

  /** Account 1 with the given parent, beside accounts 10 and 20. */
  function Family(parent: int): Database {
    Database([Child(parent)] + [Elder(10), Elder(20)], [], [], [])
  }

  const AccountOneWithParent := EmptyPlan.(preds := [IdIs(1)], withParent := Some(EmptyPlan))

  /** So a builder reused after account 1 moved from parent 10 to parent 20 misses the parent that a
      fresh builder finds. */
  lemma SecondRunCanMiss()
    ensures var q := AccountOneWithParent;
      && |Batched(Family(20), q)| == |Batched(Family(20), After(Family(10), q))| == 1
      && ParentRow(Batched(Family(20), q)[0]) == Some(Elder(20))
      && ParentRow(Batched(Family(20), After(Family(10), q))[0]) == None
  {
    FamilyRow(10);
    FamilyRow(20);
    assert Family(20).accounts[2] == Elder(20);
    NoGroupsSurvives(Family(10));
    AllLevelsAfter(HasNoGroups(), Family(10), AccountOneWithParent);
    GrouplessReturns(Family(20), After(Family(10), AccountOneWithParent));
    Missed(Family(10), Family(20), AccountOneWithParent, EmptyPlan, Child(10), Child(20), Elder(20));
  }

  lemma FamilyRow(parent: int)
    ensures KeysDiffer(IdOf(), Family(parent).accounts)
    ensures Selected(Family(parent), AccountOneWithParent) == [Child(parent)] == RowsOf(Family(parent), AccountOneWithParent)
  {
    SelectOne(Family(parent), AccountOneWithParent, Child(parent), [Elder(10), Elder(20)]);
  }

  lemma {:induction false} Missed(db1: Database, db2: Database, q: Plan, pq: Plan, c1: AccountRow, c2: AccountRow,
                                  p2: AccountRow)
    requires KeysDiffer(IdOf(), db2.accounts) && q.withParent == Some(pq) && Unfiltered(q.withParent) && pq.fields == []
    requires RowsOf(db1, q) == [c1] && RowsOf(db2, q) == [c2] == Selected(db2, q)
    requires c1.parentId.Some? && c2.parentId == Some(p2.id) && c1.parentId != c2.parentId && p2 in db2.accounts
    requires Run(db2, After(db1, q)).Returned?
    ensures |Batched(db2, q)| == |Batched(db2, After(db1, q))| == 1
    ensures ParentRow(Batched(db2, q)[0]) == Some(p2) && ParentRow(Batched(db2, After(db1, q))[0]) == None
  {
    KeysOfOne(c1);
    FreshFinds(db2, q, pq, c2, p2);
    SecondRunParents(db1, db2, q, 0);
  }

  lemma {:induction false} FreshFinds(db: Database, q: Plan, pq: Plan, c: AccountRow, p: AccountRow)
    requires KeysDiffer(IdOf(), db.accounts) && q.withParent == Some(pq) && Unfiltered(Some(pq)) && pq.fields == []
    requires RowsOf(db, q) == [c] == Selected(db, q) && c.parentId == Some(p.id) && p in db.accounts
    ensures |Batched(db, q)| == 1 && ParentRow(Batched(db, q)[0]) == Some(p)
  {
    assert |Batched(db, q)| == 1;
    ParentOrErrUnpaged(db, q, 0);
    OneAccount(db, pq, p);
    assert IsAccount(db, pq, p.id, p);
    var t := Batched(db, q)[0];
    assert OrErr(t.parent, t.loaded.parent).Found?;
  }

  lemma OneAccount(db: Database, pq: Plan, p: AccountRow)
    requires KeysDiffer(IdOf(), db.accounts) && Unfiltered(Some(pq)) && p in db.accounts
    ensures forall x :: IsAccount(db, pq, p.id, x) <==> x == p
  {
    forall x | IsAccount(db, pq, p.id, x) ensures x == p { SameRow(db.accounts, x, p); }
  }

  lemma KeysOfOne(c: AccountRow)
    requires c.parentId.Some?
    ensures Keys(ParentOf(), [c]) == [c.parentId.value]
  {
    assert [c][..0] == [];
  }

  lemma SelectOne(db: Database, q: Plan, c: AccountRow, rest: seq<AccountRow>)
    requires db.accounts == [c] + rest && KeysDiffer(IdOf(), db.accounts)
    requires PlainSub(q) && q.preds == [IdIs(c.id)] && q.fields == [] && q.order == []
    ensures Selected(db, q) == [c] == RowsOf(db, q)
  {
    SelectedPlain(db, q);
    assert [] + [IdIs(c.id)] == q.preds;
    forall x ensures All(q.preds)(x) == IdIs(c.id)(x) { AllSnoc([], IdIs(c.id), x); }
    forall x | x in rest ensures x.id != c.id {
      var i :| 0 <= i < |rest| && rest[i] == x;
      assert IdOf()(db.accounts[0]) != IdOf()(db.accounts[i + 1]);
    }
    FilterConcat(All(q.preds), [c], rest);
    FilterNone(All(q.preds), rest);
    FilterSnoc(All(q.preds), [], c);
    assert [] + [c] == [c];
    SortSnoc(q.order, [], c);
  }
}
