/** What an AccountQuery means, as values.  Batched is what the loads compute: one query per edge for
    the whole result, spread back by key.  Naive is what they stand for: one lookup per node. */
module EagerLoading {
  import opened Relational

  // ----- rows -----

  datatype RowColumn = IdCol | ProxyIdCol | ParentIdCol | DataCol(name: string)

  datatype AccountRow = AccountRow(id: int, proxyId: Option<int>, parentId: Option<int>, data: map<string, string>)
  datatype ProxyRow = ProxyRow(id: int, data: string)
  datatype UsageRow = UsageRow(id: int, accountId: int, data: string)
  datatype GroupRow = GroupRow(id: int, data: string)

  /** A row of groups JOIN account_groups, in whatever order the driver delivers them. */
  datatype JoinRow = JoinRow(accountId: int, group: GroupRow)

  datatype Database = Database(
    accounts: seq<AccountRow>, proxies: seq<ProxyRow>, usageLogs: seq<UsageRow>, groupJoin: seq<JoinRow>)

  function IdOf(): AccountRow -> int { (r: AccountRow) => r.id }
  function ProxyOf(): AccountRow -> Option<int> { (r: AccountRow) => r.proxyId }
  function ParentOf(): AccountRow -> Option<int> { (r: AccountRow) => r.parentId }
  function GroupIdOf(): JoinRow -> int { (j: JoinRow) => j.group.id }
  function GroupOf(): JoinRow -> GroupRow { (j: JoinRow) => j.group }

  // The predicates that the loads add to a sub-query, and their single-key counterparts.
  function IdIn(ks: seq<int>): AccountRow -> bool { (r: AccountRow) => r.id in ks }
  function IdIs(k: int): AccountRow -> bool { (r: AccountRow) => r.id == k }
  function ParentIn(ks: seq<int>): AccountRow -> bool { (r: AccountRow) => r.parentId.Some? && r.parentId.value in ks }
  function ParentIs(k: int): AccountRow -> bool { (r: AccountRow) => r.parentId == Some(k) }
  function ProxyIn(ks: seq<int>): ProxyRow -> bool { (r: ProxyRow) => r.id in ks }
  function ProxyIs(k: int): ProxyRow -> bool { (r: ProxyRow) => r.id == k }
  function UsageIn(ks: seq<int>): UsageRow -> bool { (r: UsageRow) => r.accountId in ks }
  function UsageIs(k: int): UsageRow -> bool { (r: UsageRow) => r.accountId == k }
  function JoinedIn(ks: seq<int>): JoinRow -> bool { (j: JoinRow) => j.accountId in ks }
  function JoinedIs(k: int): JoinRow -> bool { (j: JoinRow) => j.accountId == k }

  // What is asked of a group, asked of the rows that join it.
  function OnGroup(p: GroupRow -> bool): JoinRow -> bool { (j: JoinRow) => p(j.group) }
  function TermOnGroup(t: OrderTerm<GroupRow>): OrderTerm<JoinRow> { OrderTerm((j: JoinRow) => t.key(j.group), t.desc) }

  // ----- queries -----

  /** A query on a neighbouring table, without edges of its own. */
  datatype LeafQuery<!R> = LeafQuery(
    preds: seq<R -> bool>, order: seq<OrderTerm<R>>, limit: Option<nat>, offset: Option<nat>)

  /** A query on groups.  Each load appends a join with account_groups, restricted to the ids of its result, that puts
      the account id of the join before the columns selected so far; joins lists those ids, load by load. */
  datatype GroupsQuery = GroupsQuery(asked: LeafQuery<GroupRow>, joins: seq<seq<int>>)

  function AddJoin(q: GroupsQuery, ids: seq<int>): GroupsQuery { q.(joins := q.joins + [ids]) }

  function Lifted(q: LeafQuery<GroupRow>): LeafQuery<JoinRow> {
    LeafQuery(seq(|q.preds|, i requires 0 <= i < |q.preds| => OnGroup(q.preds[i])),
              seq(|q.order|, i requires 0 <= i < |q.order| => TermOnGroup(q.order[i])), q.limit, q.offset)
  }

  /** The state of an AccountQuery builder; source is the row source of a traversal, if it has one. */
  datatype Plan = Plan(
    source: Option<seq<AccountRow>>,
    preds: seq<AccountRow -> bool>,
    order: seq<OrderTerm<AccountRow>>,
    limit: Option<nat>,
    offset: Option<nat>,
    unique: Option<bool>,
    fields: seq<RowColumn>,
    withGroups: Option<GroupsQuery>,
    withProxy: Option<LeafQuery<ProxyRow>>,
    withParent: Option<Plan>,
    withChildren: Option<Plan>,
    withUsageLogs: Option<LeafQuery<UsageRow>>)

  const EmptyPlan := Plan(None, [], [], None, None, None, [], None, None, None, None, None)

  function Where(q: Plan, p: AccountRow -> bool): (w: Plan)
    ensures Height(w) == Height(q)
  {
    q.(preds := q.preds + [p])
  }

  function LeafWhere<R>(q: LeafQuery<R>, p: R -> bool): LeafQuery<R> { q.(preds := q.preds + [p]) }

  function AddOnce(cs: seq<RowColumn>, c: RowColumn): seq<RowColumn> { if c in cs then cs else cs + [c] }

  /** loadChildren keeps the foreign key selected when the sub-query selects columns. */
  function KeepParentColumn(q: Plan): (w: Plan)
    ensures Height(w) == Height(q)
  {
    if q.fields == [] then q else q.(fields := AddOnce(q.fields, ParentIdCol))
  }

  function NotIdCol(): RowColumn -> bool { (c: RowColumn) => c != IdCol }

  /** The columns querySpec selects; None stands for all of them. */
  function Columns(q: Plan): Option<seq<RowColumn>> {
    if q.fields == [] then None
    else
      var cs := [IdCol] + Filter(NotIdCol(), q.fields);
      var cs := if q.withProxy.Some? then AddOnce(cs, ProxyIdCol) else cs;
      Some(if q.withParent.Some? then AddOnce(cs, ParentIdCol) else cs)
  }

  /** An entity scanned from the selected columns: the others keep their zero values. */
  function Project(cs: Option<seq<RowColumn>>): AccountRow -> AccountRow {
    (r: AccountRow) =>
      if cs.None? then r
      else AccountRow(
        if IdCol in cs.value then r.id else 0,
        if ProxyIdCol in cs.value then r.proxyId else None,
        if ParentIdCol in cs.value then r.parentId else None,
        map k | k in r.data && DataCol(k) in cs.value :: r.data[k])
  }

  function IsUnique(q: Plan): bool {
    if q.unique.Some? then q.unique.value else q.source.Some?
  }

  /** The spec holds the limit as an int, so an absent limit and Limit(0) are the same. */
  function SpecLimit(limit: Option<nat>): Option<nat> {
    if limit == Some(0) then None else limit
  }

  function SpecOffset(offset: Option<nat>): nat {
    if offset.Some? then offset.value else 0
  }

  function Source(db: Database, q: Plan): seq<AccountRow> {
    if q.source.Some? then q.source.value else db.accounts
  }

  /** The rows the spec of q selects, before projection. */
  function Selected(db: Database, q: Plan): seq<AccountRow> {
    var kept := Filter(All(q.preds), Source(db, q));
    var once := if IsUnique(q) then Distinct(Project(Columns(q)), kept) else kept;
    Page(SpecLimit(q.limit), SpecOffset(q.offset), Sort(q.order, once))
  }

  function LeafRows<R>(table: seq<R>, q: LeafQuery<R>): seq<R> {
    Page(SpecLimit(q.limit), SpecOffset(q.offset), Sort(q.order, Filter(All(q.preds), table)))
  }

  function SameGroup(w: JoinRow): JoinRow -> bool { (j: JoinRow) => j.group.id == w.group.id }

  /** Every row of ws once for each row of js that joins its group; the account is that of the later join. */
  function Rejoined(ws: seq<JoinRow>, js: seq<JoinRow>): seq<JoinRow> {
    if ws == [] then []
    else
      var w := ws[|ws| - 1];
      Rejoined(ws[..|ws| - 1], js) + Map((j: JoinRow) => JoinRow(j.accountId, w.group), Filter(SameGroup(w), js))
  }

  /** The rows of groups under the given joins. */
  function Wide(table: seq<JoinRow>, joins: seq<seq<int>>): seq<JoinRow> {
    if joins == [] then table
    else
      var own := Filter(JoinedIn(joins[|joins| - 1]), table);
      if |joins| == 1 then own else Rejoined(Wide(table, joins[..|joins| - 1]), own)
  }

  function JoinedRows(table: seq<JoinRow>, q: GroupsQuery): seq<JoinRow> { LeafRows(Wide(table, q.joins), Lifted(q.asked)) }

  function RowsOf(db: Database, q: Plan): seq<AccountRow> { Map(Project(Columns(q)), Selected(db, q)) }

  // ----- results -----

  datatype Loaded = Loaded(groups: bool, proxy: bool, parent: bool, children: bool, usageLogs: bool)

  /** An Account together with everything reachable through its loaded edges. */
  datatype Tree = Tree(
    row: AccountRow, loaded: Loaded,
    groups: seq<GroupRow>, proxy: Option<ProxyRow>, parent: Option<Tree>, children: seq<Tree>, usageLogs: seq<UsageRow>)

  function LoadedFlags(q: Plan): Loaded {
    Loaded(q.withGroups.Some?, q.withProxy.Some?, q.withParent.Some?, q.withChildren.Some?, q.withUsageLogs.Some?)
  }

  function TreeIdIs(k: int): Tree -> bool { (t: Tree) => t.row.id == k }
  function TreeParentIs(k: int): Tree -> bool { (t: Tree) => t.row.parentId == Some(k) }

  function Max(a: nat, b: nat): nat { if a < b then b else a }

  /** The depth of the nesting of With* calls. */
  function Height(q: Plan): nat {
    1 + Max(if q.withParent.Some? then Height(q.withParent.value) else 0,
            if q.withChildren.Some? then Height(q.withChildren.value) else 0)
  }

  /** The last element satisfying p. */
  function FindLast<T>(p: T -> bool, s: seq<T>): Option<T> {
    if s == [] then None
    else if p(s[|s| - 1]) then Some(s[|s| - 1])
    else FindLast(p, s[..|s| - 1])
  }

  /** The distinct foreign keys of rows, in order of first occurrence. */
  function Keys(fk: AccountRow -> Option<int>, rows: seq<AccountRow>): seq<int> {
    if rows == [] then []
    else
      var ks, k := Keys(fk, rows[..|rows| - 1]), fk(rows[|rows| - 1]);
      if k.None? || k.value in ks then ks else ks + [k.value]
  }

  /** No later node of the result carries the same id: the one a map keyed by id ends up holding. */
  predicate IsLast(rows: seq<AccountRow>, i: nat)
    requires i < |rows|
  {
    forall j | i < j < |rows| :: rows[j].id != rows[i].id
  }

  function JoinsGroup(joined: seq<JoinRow>, id: int): JoinRow -> bool {
    (j: JoinRow) => exists k | 0 <= k < |joined| :: joined[k].accountId == id && joined[k].group.id == j.group.id
  }

  /** The groups joined to account id, each once, in the order in which the whole batch first mentions them. */
  function GroupsOf(joined: seq<JoinRow>, id: int): seq<GroupRow> {
    Map(GroupOf(), Filter(JoinsGroup(joined, id), Distinct(GroupIdOf(), joined)))
  }

  /** The answers to the batched queries of one result, one per edge. */
  datatype Neighbors = Neighbors(
    joined: seq<JoinRow>, proxies: seq<ProxyRow>, parents: seq<Tree>, children: seq<Tree>, usageLogs: seq<UsageRow>)

  function Batch(db: Database, q: Plan, rows: seq<AccountRow>): Neighbors
    decreases Height(q), 0
  {
    var ids := Map(IdOf(), rows);
    Neighbors(
      if q.withGroups.Some? then JoinedRows(db.groupJoin, AddJoin(q.withGroups.value, ids)) else [],
      if q.withProxy.Some? then LeafRows(db.proxies, LeafWhere(q.withProxy.value, ProxyIn(Keys(ProxyOf(), rows)))) else [],
      if q.withParent.Some? then Batched(db, Where(q.withParent.value, IdIn(Keys(ParentOf(), rows)))) else [],
      if q.withChildren.Some? then Batched(db, Where(KeepParentColumn(q.withChildren.value), ParentIn(ids))) else [],
      if q.withUsageLogs.Some? then LeafRows(db.usageLogs, LeafWhere(q.withUsageLogs.value, UsageIn(ids))) else [])
  }

  /** Node i of a result with the answers spread back to it. */
  function Spread(q: Plan, rows: seq<AccountRow>, ns: Neighbors, i: nat): Tree
    requires i < |rows|
  {
    var r := rows[i];
    Tree(
      r, LoadedFlags(q),
      if IsLast(rows, i) then GroupsOf(ns.joined, r.id) else [],
      if r.proxyId.Some? then FindLast(ProxyIs(r.proxyId.value), ns.proxies) else None,
      if r.parentId.Some? then FindLast(TreeIdIs(r.parentId.value), ns.parents) else None,
      if IsLast(rows, i) then Filter(TreeParentIs(r.id), ns.children) else [],
      if IsLast(rows, i) then Filter(UsageIs(r.id), ns.usageLogs) else [])
  }

  /** The result of sqlAll: one query per requested edge and level. */
  function Batched(db: Database, q: Plan): seq<Tree>
    decreases Height(q), 1
  {
    var rows := RowsOf(db, q);
    var ns := Batch(db, q, rows);
    seq(|rows|, i requires 0 <= i < |rows| => Spread(q, rows, ns, i))
  }

  // ----- when a run panics -----

  /** The wrapped row callback takes one leading account id off a row and asserts that an id follows; behind a second
      join another account id follows, scanned into a target of no known type, and the assertion panics. */
  predicate GroupsPanic(db: Database, q: Option<GroupsQuery>, ids: seq<int>) {
    q.Some? && q.value.joins != [] && JoinedRows(db.groupJoin, AddJoin(q.value, ids)) != []
  }

  /** Some load of the run, at some depth, panics. */
  predicate Panics(db: Database, q: Plan)
    decreases Height(q)
  {
    var rows := RowsOf(db, q);
    var ids := Map(IdOf(), rows);
    && rows != []
    && (|| GroupsPanic(db, q.withGroups, ids)
        || (q.withParent.Some? && Keys(ParentOf(), rows) != []
              && Panics(db, Where(q.withParent.value, IdIn(Keys(ParentOf(), rows)))))
        || (q.withChildren.Some? && Panics(db, Where(KeepParentColumn(q.withChildren.value), ParentIn(ids)))))
  }

  datatype RunResult = Returned(trees: seq<Tree>) | Panicked

  /** What sqlAll does. */
  function Run(db: Database, q: Plan): RunResult { if Panics(db, q) then Panicked else Returned(Batched(db, q)) }

  /** No groups sub-query of the builder has been loaded yet. */
  predicate Unjoined(q: Plan)
    decreases Height(q)
  {
    && (q.withGroups.Some? ==> q.withGroups.value.joins == [])
    && (q.withParent.Some? ==> Unjoined(q.withParent.value))
    && (q.withChildren.Some? ==> Unjoined(q.withChildren.value))
  }

  // ----- the naive join -----

  /** The entity of row r with each requested edge looked up for this row alone. */
  function NaiveNode(db: Database, q: Plan, r: AccountRow): Tree
    decreases Height(q), 0
  {
    Tree(
      Project(Columns(q))(r), LoadedFlags(q),
      if q.withGroups.Some?
      then Map(GroupOf(), Distinct(GroupIdOf(), LeafRows(db.groupJoin, LeafWhere(Lifted(q.withGroups.value.asked), JoinedIs(r.id)))))
      else [],
      if q.withProxy.Some? && r.proxyId.Some?
      then Last(LeafRows(db.proxies, LeafWhere(q.withProxy.value, ProxyIs(r.proxyId.value))))
      else None,
      if q.withParent.Some? && r.parentId.Some?
      then Last(Naive(db, Where(q.withParent.value, IdIs(r.parentId.value))))
      else None,
      if q.withChildren.Some?
      then Naive(db, Where(KeepParentColumn(q.withChildren.value), ParentIs(r.id)))
      else [],
      if q.withUsageLogs.Some?
      then LeafRows(db.usageLogs, LeafWhere(q.withUsageLogs.value, UsageIs(r.id)))
      else [])
  }

  function Naive(db: Database, q: Plan): seq<Tree>
    decreases Height(q), 1
  {
    Map((r: AccountRow) => NaiveNode(db, q, r), Selected(db, q))
  }

  function Last<T>(s: seq<T>): Option<T> { if s == [] then None else Some(s[|s| - 1]) }

  // ----- the specification handed to the database -----

  /** Limit and offset are plain numbers here: 0 stands for an absent one. */
  datatype QuerySpec = QuerySpec(
    from: Option<seq<AccountRow>>, columns: Option<seq<RowColumn>>, unique: bool,
    preds: seq<AccountRow -> bool>, order: seq<OrderTerm<AccountRow>>, limit: nat, offset: nat)

  /** The rows the database returns for a spec. */
  function QueryNodes(db: Database, spec: QuerySpec): seq<AccountRow> {
    var kept := Filter(All(spec.preds), if spec.from.Some? then spec.from.value else db.accounts);
    var once := if spec.unique then Distinct(Project(spec.columns), kept) else kept;
    Map(Project(spec.columns),
        Page(if spec.limit == 0 then None else Some(spec.limit), spec.offset, Sort(spec.order, once)))
  }

  function SpecOf(q: Plan): QuerySpec {
    QuerySpec(q.source, Columns(q), IsUnique(q), q.preds, q.order,
              if q.limit.Some? then q.limit.value else 0, SpecOffset(q.offset))
  }

  // ----- reading an edge -----

  datatype EdgeResult<+T> = Found(value: T) | NotFound | NotLoaded

  /** The three-way answer of ProxyOrErr and ParentOrErr. */
  function OrErr<T>(value: Option<T>, loaded: bool): EdgeResult<T> {
    if value.Some? then Found(value.value) else if loaded then NotFound else NotLoaded
  }

  // ----- what a run leaves behind -----

  /** The builder after sqlAll: every sub-query that ran keeps the key filter its load added. */
  function After(db: Database, q: Plan): Plan
    decreases Height(q)
  {
    var rows := RowsOf(db, q);
    var ids := Map(IdOf(), rows);
    if rows == [] then q
    else q.(
      withGroups := if q.withGroups.Some? then Some(AddJoin(q.withGroups.value, ids)) else None,
      withProxy := if q.withProxy.Some? && Keys(ProxyOf(), rows) != []
                   then Some(LeafWhere(q.withProxy.value, ProxyIn(Keys(ProxyOf(), rows)))) else q.withProxy,
      withParent := if q.withParent.Some? && Keys(ParentOf(), rows) != []
                    then Some(After(db, Where(q.withParent.value, IdIn(Keys(ParentOf(), rows))))) else q.withParent,
      withChildren := if q.withChildren.Some?
                      then Some(After(db, Where(KeepParentColumn(q.withChildren.value), ParentIn(ids)))) else None,
      withUsageLogs := if q.withUsageLogs.Some? then Some(LeafWhere(q.withUsageLogs.value, UsageIn(ids))) else None)
  }
}
