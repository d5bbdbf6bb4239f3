/** The AccountQuery builder and its eager-loading run, as the objects they are. */
module AccountQueries {
  import opened Relational
  import opened EagerLoading
  import opened BatchingCorrect
  import opened NodeResults
  import opened QueryPaths
  import opened QueryMeaning
  import opened Sealing

  datatype Lock = ForUpdate | ForShare

  /** A nested builder, if there is one, is well formed and starts from its table. */
  ghost predicate ValidSub(query: AccountQuery?)
    reads query, ReprOf(query)
  {
    query != null ==> query.Valid() && query.source.None?
  }

  ghost function ReprOf(query: AccountQuery?): set<object>
    reads query
  {
    if query == null then {} else query.Repr
  }

  ghost function StateOf(query: AccountQuery?): Option<Plan>
    reads query
  {
    if query == null then None else Some(query.state)
  }

  /** A nested builder carries no lock, nor does any builder below it. */
  ghost predicate UnlockedSub(query: AccountQuery?)
    reads query, ReprOf(query)
  {
    query != null ==> query.Unlocked()
  }

  /** The nodes are the rows with the columns and the loaded edges that q asks for. */
  ghost predicate ShowsColumns(q: Plan, nodes: seq<Account>, rows: seq<AccountRow>)
    reads nodes
  {
    && |nodes| == |rows|
    && forall i | 0 <= i < |nodes| ::
         && Shown(q.fields, q.withProxy.Some?, q.withParent.Some?, rows[i], nodes[i].row)
         && nodes[i].loaded
            == Loaded(q.withGroups.Some?, q.withProxy.Some?, q.withParent.Some?, q.withChildren.Some?, q.withUsageLogs.Some?)
  }

  datatype OneOf<+T> = One(value: T) | NoneFound | NotSingular | ScanError | LoadPanic

  class AccountQuery {
    var source: Option<seq<AccountRow>>
    var preds: seq<AccountRow -> bool>
    var order: seq<OrderTerm<AccountRow>>
    var limit: Option<nat>
    var offset: Option<nat>
    var unique: Option<bool>
    var fields: seq<RowColumn>
    var withGroups: Option<GroupsQuery>
    var withProxy: Option<LeafQuery<ProxyRow>>
    var withParent: AccountQuery?
    var withChildren: AccountQuery?
    var withUsageLogs: Option<LeafQuery<UsageRow>>
    var modifiers: seq<Lock>
    ghost var Repr: set<object>
    ghost var state: Plan  // what the builder asks for

    /** The nested builders form a tree of which this is the root. */
    ghost predicate Shape()
      reads this, Repr
      decreases Repr, 0
    {
      && this in Repr
      && (withParent != null ==>
            && withParent in Repr && withParent.Repr <= Repr - {this}
            && withParent.Valid() && withParent.source.None?)
      && (withChildren != null ==>
            && withChildren in Repr && withChildren.Repr <= Repr - {this}
            && withChildren.Valid() && withChildren.source.None?)
      && (withParent != null && withChildren != null ==> withParent.Repr !! withChildren.Repr)
    }

    ghost predicate Valid()
      reads this, Repr
      ensures Valid() ==> this in Repr
      decreases Repr, 1
    {
      && Shape()
      && state == Plan(source, preds, order, limit, offset, unique, fields, withGroups, withProxy,
                       if withParent == null then None else Some(withParent.state),
                       if withChildren == null then None else Some(withChildren.state),
                       withUsageLogs)
    }

    /** No lock modifier at any depth of the nesting. */
    ghost predicate Unlocked()
      reads this, Repr
      decreases Repr
    {
      && Shape()
      && modifiers == []
      && (withParent != null ==> withParent.Unlocked())
      && (withChildren != null ==> withChildren.Unlocked())
    }

    constructor (source: Option<seq<AccountRow>>)
      ensures Valid() && Repr == {this} && state == EmptyPlan.(source := source) && modifiers == []
    {
      this.source := source;
      preds, order, limit, offset, unique, fields := [], [], None, None, None, [];
      withGroups, withProxy, withParent, withChildren, withUsageLogs := None, None, null, null, None;
      modifiers := [];
      Repr, state := {this}, EmptyPlan.(source := source);
    }

    // ----- building -----

    method Where(p: AccountRow -> bool)
      requires Valid()
      modifies this`preds, this`state
      ensures Valid() && state == EagerLoading.Where(old(state), p)
    {
      preds := preds + [p];
      state := EagerLoading.Where(state, p);
    }

    method Limit(n: nat)
      requires Valid()
      modifies this`limit, this`state
      ensures Valid() && state == old(state).(limit := Some(n))
    {
      limit := Some(n);
      state := state.(limit := limit);
    }

    method Offset(n: nat)
      requires Valid()
      modifies this`offset, this`state
      ensures Valid() && state == old(state).(offset := Some(n))
    {
      offset := Some(n);
      state := state.(offset := offset);
    }

    method Unique(b: bool)
      requires Valid()
      modifies this`unique, this`state
      ensures Valid() && state == old(state).(unique := Some(b))
    {
      unique := Some(b);
      state := state.(unique := unique);
    }

    method Order(t: OrderTerm<AccountRow>)
      requires Valid()
      modifies this`order, this`state
      ensures Valid() && state == old(state).(order := old(state).order + [t])
    {
      order := order + [t];
      state := state.(order := order);
    }

    method Select(fs: seq<RowColumn>)
      requires Valid()
      modifies this`fields, this`state
      ensures Valid() && state == old(state).(fields := old(state).fields + fs)
    {
      fields := fields + fs;
      state := state.(fields := fields);
    }

    method LockRows(lock: Lock, postgres: bool)
      requires Valid()
      modifies this`unique, this`modifiers, this`state
      ensures Valid() && state == if postgres then old(state).(unique := Some(false)) else old(state)
      ensures modifiers == old(modifiers) + [lock]
    {
      if postgres {
        Unique(false);
      }
      modifiers := modifiers + [lock];
    }

    method WithGroups(query: LeafQuery<GroupRow>)
      requires Valid()
      modifies this`withGroups, this`state
      ensures Valid() && state == old(state).(withGroups := Some(GroupsQuery(query, [])))
    {
      withGroups := Some(GroupsQuery(query, []));
      state := state.(withGroups := withGroups);
    }

    method WithProxy(query: LeafQuery<ProxyRow>)
      requires Valid()
      modifies this`withProxy, this`state
      ensures Valid() && state == old(state).(withProxy := Some(query))
    {
      withProxy := Some(query);
      state := state.(withProxy := withProxy);
    }

    method WithUsageLogs(query: LeafQuery<UsageRow>)
      requires Valid()
      modifies this`withUsageLogs, this`state
      ensures Valid() && state == old(state).(withUsageLogs := Some(query))
    {
      withUsageLogs := Some(query);
      state := state.(withUsageLogs := withUsageLogs);
    }

    /** The new builder of an edge, configured by the options. */
    static method Configured(opts: seq<Op>) returns (query: AccountQuery)
      ensures query.Valid() && fresh(query.Repr) && query.source.None? && query.state == Steps(EmptyPlan, opts)
      decreases opts, 1
    {
      query := new AccountQuery(None);
      query.Apply(opts);
    }

    method WithParent(opts: seq<Op>)
      requires Valid()
      modifies this`withParent, this`Repr, this`state
      ensures Valid() && fresh(Repr - old(Repr))
      ensures state == old(state).(withParent := Some(Steps(EmptyPlan, opts)))
      decreases opts, 2
    {
      var query := Configured(opts);
      withParent := query;
      Repr := Repr + query.Repr;
      state := state.(withParent := Some(query.state));
    }

    method WithChildren(opts: seq<Op>)
      requires Valid()
      modifies this`withChildren, this`Repr, this`state
      ensures Valid() && fresh(Repr - old(Repr))
      ensures state == old(state).(withChildren := Some(Steps(EmptyPlan, opts)))
      decreases opts, 2
    {
      var query := Configured(opts);
      withChildren := query;
      Repr := Repr + query.Repr;
      state := state.(withChildren := Some(query.state));
    }

    method Call(op: Op)
      requires Valid()
      modifies this
      ensures Valid() && fresh(Repr - old(Repr)) && source == old(source)
      ensures state == Step(old(state), op)
      decreases op, 1
    {
      match op
      case WhereOp(p) => Where(p);
      case OrderOp(t) => Order(t);
      case LimitOp(n) => Limit(n);
      case OffsetOp(n) => Offset(n);
      case UniqueOp(b) => Unique(b);
      case SelectOp(fs) => Select(fs);
      case ForUpdateOp(postgres) => LockRows(ForUpdate, postgres);
      case ForShareOp(postgres) => LockRows(ForShare, postgres);
      case WithGroupsOp(g) => WithGroups(g);
      case WithProxyOp(x) => WithProxy(x);
      case WithUsageLogsOp(u) => WithUsageLogs(u);
      case WithParentOp(opts) => WithParent(opts);
      case WithChildrenOp(opts) => WithChildren(opts);
    }

    /** The options of a With* call, or any run of calls on a builder. */
    method Apply(ops: seq<Op>)
      requires Valid()
      modifies this
      ensures Valid() && fresh(Repr - old(Repr)) && source == old(source)
      ensures state == Steps(old(state), ops)
      decreases ops, 0
    {
      for i := 0 to |ops|
        invariant Valid() && fresh(Repr - old(Repr)) && source == old(source)
        invariant state == Steps(old(state), ops[..i])
      {
        assert ops[..i + 1][..i] == ops[..i];
        Call(ops[i]);
      }
      assert ops[..|ops|] == ops;
    }

    // ----- cloning -----

    constructor Copy(q: AccountQuery, parentQ: AccountQuery?, childrenQ: AccountQuery?)
      requires q.Valid() && ValidSub(parentQ) && ValidSub(childrenQ)
      requires StateOf(parentQ) == StateOf(q.withParent) && StateOf(childrenQ) == StateOf(q.withChildren)
      requires ReprOf(parentQ) !! ReprOf(childrenQ)
      ensures Valid() && Repr == {this} + ReprOf(parentQ) + ReprOf(childrenQ) && state == q.state
      ensures source == q.source && modifiers == [] && withParent == parentQ && withChildren == childrenQ
    {
      source, preds, order, limit, offset, unique, fields :=
        q.source, q.preds, q.order, q.limit, q.offset, q.unique, q.fields;
      withGroups, withProxy, withUsageLogs := q.withGroups, q.withProxy, q.withUsageLogs;
      withParent, withChildren := parentQ, childrenQ;
      modifiers := [];
      Repr := {this} + ReprOf(parentQ) + ReprOf(childrenQ);
      state := q.state;
    }

    static method CloneOf(query: AccountQuery?) returns (c: AccountQuery?)
      requires ValidSub(query)
      ensures ValidSub(c) && UnlockedSub(c) && StateOf(c) == StateOf(query) && fresh(ReprOf(c))
      decreases ReprOf(query), 1
    {
      if query == null {
        return null;
      }
      c := query.Clone();
    }

    /** A duplicate down to the nested builders; the row locks are not copied. */
    method Clone() returns (c: AccountQuery)
      requires Valid()
      ensures c.Valid() && c.Unlocked() && fresh(c.Repr) && c.state == state && c.source == source
      decreases Repr, 0
    {
      var parentQ := CloneOf(withParent);
      var childrenQ := CloneOf(withChildren);
      c := new AccountQuery.Copy(this, parentQ, childrenQ);
    }

    /** A clone and its original do not share anything: calls on one leave the other as it was. */
    method CloneApart(onClone: seq<Op>, onOriginal: seq<Op>) returns (c: AccountQuery)
      requires Valid()
      modifies this
      ensures Valid() && c.Valid() && Repr !! c.Repr
      ensures state == Steps(old(state), onOriginal)
      ensures c.state == Steps(old(state), onClone)
    {
      c := Clone();
      c.Apply(onClone);
      Apply(onOriginal);
    }

    // ----- running -----

    method AllNodes(db: Database) returns (nodes: seq<Account>, err: Option<LoadError>, ghost R: set<Account>)
      requires Valid()
      modifies Repr
      ensures Valid() && Repr == old(Repr) && source == old(source)
      ensures match Run(db, old(state))
              case Panicked => err == Some(AssertionPanic)
              case Returned(ts) =>
                && err.None? && fresh(R) && state == After(db, old(state))
                && (|nodes| == |ts| && forall i | 0 <= i < |nodes| :: Shows(nodes[i], ts[i], R))
                && ShowsColumns(old(state), nodes, Selected(db, old(state)))
    {
      AnswerColumns(db, state);
      ghost var ts;
      nodes, err, R, ts := SqlAll(db, state);
      if err.Some? { FailsIs(db, old(state)); } else { AnswerIs(db, old(state), ts, state); }
    }

    /** A clone can be run, on whatever database, without a trace on the original. */
    method RunClone(db: Database) returns (nodes: seq<Account>, err: Option<LoadError>, ghost R: set<Account>)
      requires Valid()
      ensures Valid()
      ensures match Run(db, state)
              case Panicked => err == Some(AssertionPanic)
              case Returned(ts) =>
                err.None? && fresh(R) && |nodes| == |ts| && forall i | 0 <= i < |nodes| :: Shows(nodes[i], ts[i], R)
    {
      var c := Clone();
      nodes, err, R := c.AllNodes(db);
    }

    /** The first of all rows, with its loaded edges; the limit of the builder is overridden. */
    method First(db: Database) returns (r: OneOf<Account>, ghost R: set<Account>)
      requires Valid()
      modifies Repr
      ensures Valid() && (r == LoadPanic <==> Panics(db, old(state).(limit := Some(1))))
      ensures r != LoadPanic ==> state == After(db, old(state).(limit := Some(1)))
      ensures r.One? ==> fresh(R) && Batched(db, old(state).(limit := Some(1))) != []
      ensures r.One? ==> Shows(r.value, Batched(db, old(state).(limit := Some(1)))[0], R)
      ensures r != LoadPanic ==>
                var rest := RowsOf(db, old(state).(limit := None));
                if rest == [] then r == NoneFound else r.One? && r.value.row == rest[0]
    {
      Limit(1);
      LimitTakes(db, state, 1);
      TreeRows(db, state);
      var nodes, err;
      nodes, err, R := AllNodes(db);
      if err.Some? {
        return LoadPanic, R;
      } else if |nodes| == 0 {
        return NoneFound, R;
      }
      return One(nodes[0]), R;
    }

    /** The one row there is, with its loaded edges; the limit of the builder is overridden. */
    method Only(db: Database) returns (r: OneOf<Account>, ghost R: set<Account>)
      requires Valid()
      modifies Repr
      ensures Valid() && (r == LoadPanic <==> Panics(db, old(state).(limit := Some(2))))
      ensures r != LoadPanic ==> state == After(db, old(state).(limit := Some(2)))
      ensures r.One? ==> fresh(R) && Batched(db, old(state).(limit := Some(2))) != []
      ensures r.One? ==> Shows(r.value, Batched(db, old(state).(limit := Some(2)))[0], R)
      ensures r != LoadPanic ==>
                var rest := RowsOf(db, old(state).(limit := None));
                match |rest| case 0 => r == NoneFound case 1 => r.One? && r.value.row == rest[0] case _ => r == NotSingular
    {
      Limit(2);
      LimitTakes(db, state, 2);
      TreeRows(db, state);
      var nodes, err;
      nodes, err, R := AllNodes(db);
      if err.Some? {
        return LoadPanic, R;
      } else if |nodes| == 1 {
        return One(nodes[0]), R;
      } else if |nodes| == 0 {
        return NoneFound, R;
      }
      return NotSingular, R;
    }

    method SqlQuery() returns (selector: Selector)
      requires Valid()
      ensures selector == SelectorOf(state)
    {
      selector := Selector(None, if |fields| == 0 then None else Some(fields), false, [], [], 0, None);
      if source.Some? {
        selector := selector.(from := source);
      }
      if unique.Some? && unique.value {
        selector := selector.(distinct := true);
      }
      selector := selector.(preds := selector.preds + preds, order := selector.order + order);
      if offset.Some? {
        selector := selector.(offset := offset.value, limit := Some(MAX_INT32));
      }
      if limit.Some? {
        selector := selector.(limit := limit);
      }
    }

    /** The selector path; a scan of several columns into a list of ids fails. */
    method IDs(db: Database) returns (ids: Option<seq<int>>)
      requires Valid()
      modifies this`unique, this`fields, this`state
      ensures Valid() && state == ForIds(old(state))
      ensures ids == if old(state).fields == [] then Some(IdsOf(db, old(state))) else None
    {
      if unique.None? && source.Some? {
        Unique(true);
      }
      Select([IdCol]);
      if |fields| > 1 {
        return None;
      }
      var selector := SqlQuery();
      return Some(Map(IdOf(), SelectorRows(db, selector)));
    }

    method FirstID(db: Database) returns (r: OneOf<int>)
      requires Valid()
      modifies this`limit, this`unique, this`fields, this`state
      ensures Valid() && state == ForIds(old(state).(limit := Some(1)))
      ensures old(state).fields != [] ==> r == ScanError
      ensures old(state).fields == [] ==>
                var ids := IdsOf(db, old(state).(limit := Some(1))); r == if ids == [] then NoneFound else One(ids[0])
      ensures old(state).fields == [] && IdDetermines(Source(db, old(state))) ==>
                var rest := RowsOf(db, old(state).(limit := None)); r == if rest == [] then NoneFound else One(rest[0].id)
    {
      Limit(1);
      if old(state).fields == [] && IdDetermines(Source(db, old(state))) { FirstIdAgrees(db, old(state)); }
      var ids := IDs(db);
      if ids.None? {
        return ScanError;
      } else if |ids.value| == 0 {
        return NoneFound;
      }
      return One(ids.value[0]);
    }

    /** Whether All would find anything without its limit; the builder does not stay as it was. */
    method Exist(db: Database) returns (found: Option<bool>)
      requires Valid()
      modifies this`limit, this`unique, this`fields, this`state
      ensures Valid() && state == ForIds(old(state).(limit := Some(1)))
      ensures old(state).fields != [] ==> found == None
      ensures old(state).fields == [] ==> found == Some(IdsOf(db, old(state).(limit := Some(1))) != [])
      ensures old(state).fields == [] && IdDetermines(Source(db, old(state))) ==>
                found == Some(RowsOf(db, old(state).(limit := None)) != [])
    {
      var id := FirstID(db);
      match id
      case NoneFound => return Some(false);
      case ScanError => return None;
      case _ => return Some(true);
    }

    /** The column loadChildren reads must be among the selected ones. */
    method AppendParentColumnOnce()
      requires Valid()
      modifies this`fields, this`state
      ensures Valid() && state == KeepParentColumn(old(state))
    {
      if |fields| > 0 && ParentIdCol !in fields {
        fields := fields + [ParentIdCol];
      }
      state := state.(fields := fields);
    }

    method QuerySpec() returns (spec: EagerLoading.QuerySpec)
      requires Valid()
      ensures spec == SpecOf(state)
    {
      var columns: Option<seq<RowColumn>> := None;
      var distinct := false;
      if unique.Some? {
        distinct := unique.value;
      } else if source.Some? {
        distinct := true;
      }
      if |fields| > 0 {
        var cs := [IdCol];
        for i := 0 to |fields|
          invariant cs == [IdCol] + Filter(NotIdCol(), fields[..i])
        {
          assert fields[..i + 1] == fields[..i] + [fields[i]];
          FilterSnoc(NotIdCol(), fields[..i], fields[i]);
          if fields[i] != IdCol {
            cs := cs + [fields[i]];
          }
        }
        assert fields[..|fields|] == fields;
        if withProxy.Some? {
          cs := AddOnce(cs, ProxyIdCol);
        }
        if withParent != null {
          cs := AddOnce(cs, ParentIdCol);
        }
        columns := Some(cs);
      }
      spec := EagerLoading.QuerySpec(
        source, columns, distinct, preds, order,
        if limit.Some? then limit.value else 0, if offset.Some? then offset.value else 0);
    }

    // ----- eager loading -----

    static method LoadParent(db: Database, query: AccountQuery, nodes: seq<Account>, ghost rows: seq<AccountRow>,
                             ghost asked: Plan)
      returns (err: Option<LoadError>, ghost R: set<Account>, ghost ps: seq<Tree>, ghost found: seq<Account?>)
      requires query.Valid() && query.source.None?
      requires NodesOf(nodes, rows) && forall n | n in nodes :: n.parent == null && n !in query.Repr
      requires asked == EagerLoading.Where(query.state, IdIn(Keys(ParentOf(), rows)))
      modifies query.Repr, (set n | n in nodes)`parent
      ensures query.Valid() && query.Repr == old(query.Repr) && query.source.None?
      ensures Outcome(err, Keys(ParentOf(), rows) != [] && Fails(db, asked))
      ensures err.None? ==>
                && (if Keys(ParentOf(), rows) == [] then query.state == old(query.state) && ps == []
                    else Answer(db, asked, ps, query.state))
                && fresh(R) && |found| == |nodes| && (forall i | 0 <= i < |nodes| :: nodes[i].parent == found[i])
                && ParentsSpread(rows, found, ps, R)
      decreases query.Repr, 3
    {
      var ids, nodeids := IndexByKey(ParentOf(), nodes, rows);
      if |ids| == 0 {
        NoKeys(ParentOf(), rows);
        return None, {}, [], seq(|nodes|, i => null);
      }
      query.Where(IdIn(ids));
      var neighbors;
      neighbors, err, R, ps := query.SqlAll(db, asked);
      if err.Some? {
        return err, {}, [], [];
      }
      ParentIdsAsked(db, asked, ids, ps, query.state);
      err, found := SpreadParent(nodes, rows, nodeids, neighbors, ps, R);
    }

    static method LoadChildren(db: Database, query: AccountQuery, nodes: seq<Account>, ghost rows: seq<AccountRow>,
                               ghost asked: Plan)
      returns (err: Option<LoadError>, ghost R: set<Account>, ghost cs: seq<Tree>, ghost found: seq<seq<Account>>)
      requires query.Valid() && query.source.None?
      requires NodesOf(nodes, rows) && forall n | n in nodes :: n !in query.Repr
      requires forall i | 0 <= i < |nodes| :: nodes[i].children == []
      requires asked == EagerLoading.Where(KeepParentColumn(query.state), ParentIn(Map(IdOf(), rows)))
      modifies query.Repr, (set n | n in nodes)`children
      ensures query.Valid() && query.Repr == old(query.Repr) && query.source.None?
      ensures Outcome(err, Fails(db, asked))
      ensures err.None? ==>
                && Answer(db, asked, cs, query.state)
                && fresh(R) && |found| == |nodes| && (forall i | 0 <= i < |nodes| :: nodes[i].children == found[i])
                && ChildrenSpread(rows, found, cs, R)
      decreases query.Repr, 4
    {
      var fks, nodeids := IndexById(nodes, rows);
      var neighbors;
      neighbors, err, R, cs := AskChildren(db, query, fks, asked);
      if err.Some? {
        return err, {}, [], [];
      }
      err, found := FillChildren(nodes, rows, nodeids, neighbors, cs, R);
    }

    /** The query of loadChildren: the foreign key stays selected, and only the children of the given keys are asked for. */
    static method AskChildren(db: Database, query: AccountQuery, fks: seq<int>, ghost asked: Plan)
      returns (neighbors: seq<Account>, err: Option<LoadError>, ghost R: set<Account>, ghost cs: seq<Tree>)
      requires query.Valid() && query.source.None?
      requires asked == EagerLoading.Where(KeepParentColumn(query.state), ParentIn(fks))
      modifies query.Repr
      ensures query.Valid() && query.Repr == old(query.Repr) && query.source.None?
      ensures Outcome(err, Fails(db, asked))
      ensures err.None? ==>
                && Answer(db, asked, cs, query.state) && fresh(R)
                && |neighbors| == |cs| && (forall i | 0 <= i < |cs| :: Shows(neighbors[i], cs[i], R))
                && forall m | 0 <= m < |cs| :: cs[m].row.parentId.Some? && cs[m].row.parentId.value in fks
      decreases query.Repr, 3
    {
      ghost var sub := query.state;
      query.AppendParentColumnOnce();
      query.Where(ParentIn(fks));
      neighbors, err, R, cs := query.SqlAll(db, asked);
      if err.None? { ChildKeysAsked(db, sub, asked, fks, cs, query.state); }
    }

    static method RunGroups(db: Database, query: Option<GroupsQuery>, nodes: seq<Account>, ghost c: Contents,
                            ghost N: set<Account>)
      returns (err: Option<LoadError>, after: Option<GroupsQuery>, ghost c': Contents, ghost js: seq<JoinRow>)
      requires Hold(nodes, c) && N == (set n | n in nodes)
      requires c.groups == Blank(c.rows, c.loaded).groups
      modifies N`groups
      ensures Outcome(err, GroupsFail(db, query, Map(IdOf(), c.rows)))
      ensures err.None? ==>
                && GroupsRun(db, query, Map(IdOf(), c.rows), js, after)
                && Hold(nodes, c') && c' == c.(groups := c'.groups) && GroupsSpread(c.rows, c'.groups, js)
    {
      err, after, c', js := None, None, c, [];
      if query.Some? {
        assert Open(Contained, 0);
        var q;
        ghost var found;
        err, q, js, found := LoadGroups(db, query.value, nodes, c.rows);
        after := Some(q);
        c' := c.(groups := found);
        assert err.None? ==> Carry(nodes, c');
      } else {
        NothingSpread(c.rows, c.loaded);
      }
    }

    static method RunProxy(db: Database, query: Option<LeafQuery<ProxyRow>>, nodes: seq<Account>, ghost c: Contents,
                           ghost N: set<Account>)
      returns (err: Option<LoadError>, after: Option<LeafQuery<ProxyRow>>, ghost c': Contents, ghost xs: seq<ProxyRow>)
      requires Hold(nodes, c) && N == (set n | n in nodes)
      requires c.proxies == Blank(c.rows, c.loaded).proxies
      modifies N`proxy
      ensures err.None? && ProxyRun(db, query, c.rows, xs, after)
      ensures Hold(nodes, c') && c' == c.(proxies := c'.proxies) && ProxySpread(c.rows, c'.proxies, xs)
    {
      err, after, c', xs := None, None, c, [];
      if query.Some? {
        assert Open(Contained, 0);
        var q;
        ghost var found;
        err, q, xs, found := LoadProxy(db, query.value, nodes, c.rows);
        after := Some(q);
        c' := c.(proxies := found);
        assert Carry(nodes, c');
      } else {
        NothingSpread(c.rows, c.loaded);
      }
    }

    static method RunUsageLogs(db: Database, query: Option<LeafQuery<UsageRow>>, nodes: seq<Account>,
                               ghost c: Contents, ghost N: set<Account>)
      returns (err: Option<LoadError>, after: Option<LeafQuery<UsageRow>>, ghost c': Contents, ghost us: seq<UsageRow>)
      requires Hold(nodes, c) && N == (set n | n in nodes)
      requires c.usageLogs == Blank(c.rows, c.loaded).usageLogs
      modifies N`usageLogs
      ensures err.None? && UsageRun(db, query, Map(IdOf(), c.rows), us, after)
      ensures Hold(nodes, c') && c' == c.(usageLogs := c'.usageLogs) && UsageSpread(c.rows, c'.usageLogs, us)
    {
      err, after, c', us := None, None, c, [];
      if query.Some? {
        assert Open(Contained, 0);
        var q;
        ghost var found;
        err, q, us, found := LoadUsageLogs(db, query.value, nodes, c.rows);
        after := Some(q);
        c' := c.(usageLogs := found);
        assert Carry(nodes, c');
      } else {
        NothingSpread(c.rows, c.loaded);
      }
    }

    static method RunParent(db: Database, query: AccountQuery?, nodes: seq<Account>, ghost c: Contents,
                            ghost N: set<Account>)
      returns (err: Option<LoadError>, ghost c': Contents, ghost R: set<Account>, ghost ps: seq<Tree>)
      requires ValidSub(query) && Hold(nodes, c) && N == (set n | n in nodes) && N !! ReprOf(query)
      requires c.parents == Blank(c.rows, c.loaded).parents
      modifies ReprOf(query), N`parent
      ensures ValidSub(query) && ReprOf(query) == old(ReprOf(query))
      ensures Outcome(err, ParentFail(db, old(StateOf(query)), c.rows))
      ensures err.None? ==>
                && ParentRun(db, old(StateOf(query)), c.rows, ps, StateOf(query)) && fresh(R)
                && Hold(nodes, c') && c' == c.(parents := c'.parents) && ParentsSpread(c.rows, c'.parents, ps, R)
      decreases ReprOf(query), 4
    {
      err, c', R, ps := None, c, {}, [];
      if query != null {
        assert Open(Contained, 0);
        ghost var found;
        ghost var asked := EagerLoading.Where(query.state, IdIn(Keys(ParentOf(), c.rows)));
        err, R, ps, found := LoadParent(db, query, nodes, c.rows, asked);
        c' := c.(parents := found);
        assert err.None? ==> Carry(nodes, c');
      } else {
        NothingSpread(c.rows, c.loaded);
      }
    }

    static method RunChildren(db: Database, query: AccountQuery?, nodes: seq<Account>, ghost c: Contents,
                              ghost N: set<Account>)
      returns (err: Option<LoadError>, ghost c': Contents, ghost R: set<Account>, ghost cs: seq<Tree>)
      requires ValidSub(query) && Hold(nodes, c) && N == (set n | n in nodes) && N !! ReprOf(query)
      requires c.children == Blank(c.rows, c.loaded).children
      modifies ReprOf(query), N`children
      ensures ValidSub(query) && ReprOf(query) == old(ReprOf(query))
      ensures Outcome(err, ChildrenFail(db, old(StateOf(query)), Map(IdOf(), c.rows)))
      ensures err.None? ==>
                && ChildrenRun(db, old(StateOf(query)), Map(IdOf(), c.rows), cs, StateOf(query)) && fresh(R)
                && Hold(nodes, c') && c' == c.(children := c'.children) && ChildrenSpread(c.rows, c'.children, cs, R)
      decreases ReprOf(query), 5
    {
      err, c', R, cs := None, c, {}, [];
      if query != null {
        assert Open(Contained, 0);
        ghost var found;
        ghost var asked := EagerLoading.Where(KeepParentColumn(query.state), ParentIn(Map(IdOf(), c.rows)));
        err, R, cs, found := LoadChildren(db, query, nodes, c.rows, asked);
        c' := c.(children := found);
        assert err.None? ==> Carry(nodes, c');
      } else {
        NothingSpread(c.rows, c.loaded);
      }
    }
  
    /** The account edges, parent before children. */
    static method RunAccounts(db: Database, parentQ: AccountQuery?, childrenQ: AccountQuery?, nodes: seq<Account>,
                              ghost c: Contents, ghost N: set<Account>)
      returns (err: Option<LoadError>, ghost c': Contents, ghost Rp: set<Account>, ghost ps: seq<Tree>,
               ghost Rc: set<Account>, ghost cs: seq<Tree>)
      requires ValidSub(parentQ) && ValidSub(childrenQ) && ReprOf(parentQ) !! ReprOf(childrenQ)
      requires Hold(nodes, c) && N == (set n | n in nodes) && N !! ReprOf(parentQ) && N !! ReprOf(childrenQ)
      requires c.parents == Blank(c.rows, c.loaded).parents && c.children == Blank(c.rows, c.loaded).children
      modifies ReprOf(parentQ), ReprOf(childrenQ), N`parent, N`children
      ensures ValidSub(parentQ) && ReprOf(parentQ) == old(ReprOf(parentQ))
      ensures ValidSub(childrenQ) && ReprOf(childrenQ) == old(ReprOf(childrenQ))
      ensures Outcome(err, ParentFail(db, old(StateOf(parentQ)), c.rows)
                        || ChildrenFail(db, old(StateOf(childrenQ)), Map(IdOf(), c.rows)))
      ensures err.None? ==>
                && fresh(Rp) && fresh(Rc)
                && ParentRun(db, old(StateOf(parentQ)), c.rows, ps, StateOf(parentQ))
                && ChildrenRun(db, old(StateOf(childrenQ)), Map(IdOf(), c.rows), cs, StateOf(childrenQ))
                && Hold(nodes, c') && c' == c.(parents := c'.parents, children := c'.children)
                && ParentsSpread(c.rows, c'.parents, ps, Rp) && ChildrenSpread(c.rows, c'.children, cs, Rc)
      decreases ReprOf(parentQ) + ReprOf(childrenQ), 7
    {
      ghost var c1;
      Rc, c', cs := {}, c, [];
      err, c1, Rp, ps := RunParent(db, parentQ, nodes, c, N);
      if err.Some? {
        return;
      }
      err, c', Rc, cs := RunChildren(db, childrenQ, nodes, c1, N);
    }

    static method RunFirst(db: Database, groupsQ: Option<GroupsQuery>, proxyQ: Option<LeafQuery<ProxyRow>>,
                           nodes: seq<Account>, ghost c: Contents, ghost N: set<Account>)
      returns (err: Option<LoadError>, groupsQ': Option<GroupsQuery>, proxyQ': Option<LeafQuery<ProxyRow>>,
               ghost c': Contents, ghost js: seq<JoinRow>, ghost xs: seq<ProxyRow>)
      requires Hold(nodes, c) && N == (set n | n in nodes)
      requires c.groups == Blank(c.rows, c.loaded).groups && c.proxies == Blank(c.rows, c.loaded).proxies
      modifies N`groups, N`proxy
      ensures Outcome(err, GroupsFail(db, groupsQ, Map(IdOf(), c.rows)))
      ensures err.None? ==>
                && GroupsRun(db, groupsQ, Map(IdOf(), c.rows), js, groupsQ') && ProxyRun(db, proxyQ, c.rows, xs, proxyQ')
                && Hold(nodes, c') && c' == c.(groups := c'.groups, proxies := c'.proxies)
                && GroupsSpread(c.rows, c'.groups, js) && ProxySpread(c.rows, c'.proxies, xs)
    {
      ghost var c1;
      proxyQ', c', xs := proxyQ, c, [];
      err, groupsQ', c1, js := RunGroups(db, groupsQ, nodes, c, N);
      if err.Some? {
        return;
      }
      err, proxyQ', c', xs := RunProxy(db, proxyQ, nodes, c1, N);
    }

    static method RunLast(db: Database, parentQ: AccountQuery?, childrenQ: AccountQuery?,
                          usageQ: Option<LeafQuery<UsageRow>>, nodes: seq<Account>, ghost c: Contents, ghost N: set<Account>)
      returns (err: Option<LoadError>, usageQ': Option<LeafQuery<UsageRow>>, ghost c': Contents,
               ghost Rp: set<Account>, ghost ps: seq<Tree>, ghost Rc: set<Account>, ghost cs: seq<Tree>,
               ghost us: seq<UsageRow>)
      requires ValidSub(parentQ) && ValidSub(childrenQ) && ReprOf(parentQ) !! ReprOf(childrenQ)
      requires Hold(nodes, c) && N == (set n | n in nodes) && N !! ReprOf(parentQ) && N !! ReprOf(childrenQ)
      requires c.parents == Blank(c.rows, c.loaded).parents && c.children == Blank(c.rows, c.loaded).children
      requires c.usageLogs == Blank(c.rows, c.loaded).usageLogs
      modifies ReprOf(parentQ), ReprOf(childrenQ), N`parent, N`children, N`usageLogs
      ensures ValidSub(parentQ) && ReprOf(parentQ) == old(ReprOf(parentQ))
      ensures ValidSub(childrenQ) && ReprOf(childrenQ) == old(ReprOf(childrenQ))
      ensures Outcome(err, ParentFail(db, old(StateOf(parentQ)), c.rows)
                        || ChildrenFail(db, old(StateOf(childrenQ)), Map(IdOf(), c.rows)))
      ensures err.None? ==>
                && fresh(Rp) && fresh(Rc)
                && ParentRun(db, old(StateOf(parentQ)), c.rows, ps, StateOf(parentQ))
                && ChildrenRun(db, old(StateOf(childrenQ)), Map(IdOf(), c.rows), cs, StateOf(childrenQ))
                && UsageRun(db, usageQ, Map(IdOf(), c.rows), us, usageQ')
                && Hold(nodes, c') && c' == c.(parents := c'.parents, children := c'.children, usageLogs := c'.usageLogs)
                && ParentsSpread(c.rows, c'.parents, ps, Rp) && ChildrenSpread(c.rows, c'.children, cs, Rc)
                && UsageSpread(c.rows, c'.usageLogs, us)
      decreases ReprOf(parentQ) + ReprOf(childrenQ), 8
    {
      ghost var c1;
      usageQ', c', us := usageQ, c, [];
      err, c1, Rp, ps, Rc, cs := RunAccounts(db, parentQ, childrenQ, nodes, c, N);
      if err.Some? {
        return;
      }
      err, usageQ', c', us := RunUsageLogs(db, usageQ, nodes, c1, N);
    }

    /** The loads in their order; each fills its own edge of every node. */
    static method FillEdges(db: Database, groupsQ: Option<GroupsQuery>, proxyQ: Option<LeafQuery<ProxyRow>>,
                            parentQ: AccountQuery?, childrenQ: AccountQuery?, usageQ: Option<LeafQuery<UsageRow>>,
                            nodes: seq<Account>, ghost c: Contents, ghost N: set<Account>)
      returns (err: Option<LoadError>, groupsQ': Option<GroupsQuery>, proxyQ': Option<LeafQuery<ProxyRow>>,
               usageQ': Option<LeafQuery<UsageRow>>,
               ghost c': Contents, ghost ns: Neighbors, ghost Rp: set<Account>, ghost Rc: set<Account>)
      requires ValidSub(parentQ) && ValidSub(childrenQ) && ReprOf(parentQ) !! ReprOf(childrenQ)
      requires Hold(nodes, c) && N == (set n | n in nodes) && N !! ReprOf(parentQ) && N !! ReprOf(childrenQ)
      requires c == Blank(c.rows, c.loaded)
      modifies ReprOf(parentQ), ReprOf(childrenQ), N
      ensures ValidSub(parentQ) && ReprOf(parentQ) == old(ReprOf(parentQ))
      ensures ValidSub(childrenQ) && ReprOf(childrenQ) == old(ReprOf(childrenQ))
      ensures Outcome(err, GroupsFail(db, groupsQ, Map(IdOf(), c.rows)) || ParentFail(db, old(StateOf(parentQ)), c.rows)
                        || ChildrenFail(db, old(StateOf(childrenQ)), Map(IdOf(), c.rows)))
      ensures err.None? ==>
                && fresh(Rp) && fresh(Rc)
                && GroupsRun(db, groupsQ, Map(IdOf(), c.rows), ns.joined, groupsQ')
                && ProxyRun(db, proxyQ, c.rows, ns.proxies, proxyQ')
                && ParentRun(db, old(StateOf(parentQ)), c.rows, ns.parents, StateOf(parentQ))
                && ChildrenRun(db, old(StateOf(childrenQ)), Map(IdOf(), c.rows), ns.children, StateOf(childrenQ))
                && UsageRun(db, usageQ, Map(IdOf(), c.rows), ns.usageLogs, usageQ')
                && EdgesFilled(nodes, c.rows, c.loaded, c', ns, Rp, Rc)
      decreases ReprOf(parentQ) + ReprOf(childrenQ), 9
    {
      ghost var c2, js, xs, ps, cs, us;
      usageQ', c', ns, Rp, Rc := usageQ, c, Neighbors([], [], [], [], []), {}, {};
      err, groupsQ', proxyQ', c2, js, xs := RunFirst(db, groupsQ, proxyQ, nodes, c, N);
      if err.Some? {
        return;
      }
      err, usageQ', c', Rp, ps, Rc, cs, us := RunLast(db, parentQ, childrenQ, usageQ, nodes, c2, N);
      ns := Neighbors(js, xs, ps, cs, us);
    }

    method SqlAll(db: Database, ghost q: Plan)
      returns (nodes: seq<Account>, err: Option<LoadError>, ghost R: set<Account>, ghost ts: seq<Tree>)
      requires Valid() && state == q
      modifies Repr
      ensures Valid() && Repr == old(Repr) && source == old(source)
      ensures Outcome(err, Fails(db, q))
      ensures err.None? ==>
                && Answer(db, q, ts, state) && fresh(R)
                && |nodes| == |ts| && forall i | 0 <= i < |nodes| :: Shows(nodes[i], ts[i], R)
      decreases Repr, 2
    {
      ghost var rows, c, ns, Rp, Rc;
      nodes, rows := FetchNodes(db, q);
      err, R, ts := None, {}, [];
      if |nodes| == 0 {
        NoAnswer(db, q);
        return;
      }
      ghost var N := set n | n in nodes;
      err, c, ns, Rp, Rc := RunLoads(db, q, nodes, Blank(rows, LoadedFlags(q)), N);
      if err.Some? {
        LoadFails(db, q, rows);
        return;
      }
      ts := Assemble(db, q, state, rows, ns);
      R := NodesShown(nodes, q, rows, c, ns, Rp, Rc, ts);
    }

    method RunLoads(db: Database, ghost q: Plan, nodes: seq<Account>, ghost c: Contents, ghost N: set<Account>)
      returns (err: Option<LoadError>, ghost c': Contents, ghost ns: Neighbors, ghost Rp: set<Account>, ghost Rc: set<Account>)
      requires Valid() && state == q
      requires Hold(nodes, c) && N == (set n | n in nodes) && N !! Repr
      requires c == Blank(c.rows, c.loaded)
      modifies Repr, N
      ensures Valid() && Repr == old(Repr) && source == old(source)
      ensures Outcome(err, SomeFails(db, q, c.rows))
      ensures err.None? ==>
                && AllRun(db, q, state, c.rows, ns) && fresh(Rp) && fresh(Rc)
                && EdgesFilled(nodes, c.rows, c.loaded, c', ns, Rp, Rc)
      decreases Repr, 1
    {
      var groupsQ, proxyQ, usageQ;
      err, groupsQ, proxyQ, usageQ, c', ns, Rp, Rc :=
        FillEdges(db, withGroups, withProxy, withParent, withChildren, withUsageLogs, nodes, c, N);
      Settle(groupsQ, proxyQ, usageQ);
    }

    /** Record what the loads left of the sub-queries. */
    method Settle(groupsQ: Option<GroupsQuery>, proxyQ: Option<LeafQuery<ProxyRow>>,
                  usageQ: Option<LeafQuery<UsageRow>>)
      requires Shape()
      requires state == Plan(source, preds, order, limit, offset, unique, fields, withGroups, withProxy,
                             state.withParent, state.withChildren, withUsageLogs)
      modifies this`withGroups, this`withProxy, this`withUsageLogs, this`state
      ensures Valid()
      ensures state == old(state).(withGroups := groupsQ, withProxy := proxyQ, withParent := StateOf(withParent),
                                   withChildren := StateOf(withChildren), withUsageLogs := usageQ)
    {
      withGroups, withProxy, withUsageLogs := groupsQ, proxyQ, usageQ;
      state := state.(withGroups := withGroups, withProxy := withProxy, withParent := StateOf(withParent),
                      withChildren := StateOf(withChildren), withUsageLogs := withUsageLogs);
    }

    method FetchNodes(db: Database, ghost q: Plan) returns (nodes: seq<Account>, ghost rows: seq<AccountRow>)
      requires Valid() && state == q
      ensures rows == RowsOf(db, q)
      ensures Hold(nodes, Blank(rows, LoadedFlags(q))) && fresh(nodes)
    {
      var spec := QuerySpec();
      SpecRows(db, q);
      rows := QueryNodes(db, spec);
      nodes := NewNodes(QueryNodes(db, spec),
                        Loaded(withGroups.Some?, withProxy.Some?, withParent != null, withChildren != null, withUsageLogs.Some?));
    }
  }

  lemma SpecRows(db: Database, q: Plan)
    ensures QueryNodes(db, SpecOf(q)) == RowsOf(db, q)
  {
  }
}
