/** The nodes of a result: objects whose edges the loads fill in place, and the loops that fill them. */
module NodeResults {
  import opened Relational
  import opened EagerLoading
  import opened BatchingCorrect
  import opened Sealing

  /** An entity of a result; the loads fill its edges in place. */
  class Account {
    var row: AccountRow
    var loaded: Loaded
    var groups: seq<GroupRow>
    var proxy: Option<ProxyRow>
    var parent: Account?
    var children: seq<Account>
    var usageLogs: seq<UsageRow>

    constructor (row: AccountRow, loaded: Loaded)
      ensures this.row == row && this.loaded == loaded
      ensures groups == [] && proxy == None && parent == null && children == [] && usageLogs == []
    {
      this.row, this.loaded := row, loaded;
      groups, proxy, parent, children, usageLogs := [], None, null, [], [];
    }

    method ParentOrErr() returns (r: EdgeResult<Account>)
      ensures r == OrErr(if parent == null then None else Some(parent), loaded.parent)
    {
      if parent != null {
        return Found(parent);
      } else if loaded.parent {
        return NotFound;
      }
      return NotLoaded;
    }

    method GroupsOrErr() returns (r: EdgeResult<seq<GroupRow>>)
      ensures r == if loaded.groups then Found(groups) else NotLoaded
    {
      if loaded.groups {
        return Found(groups);
      }
      return NotLoaded;
    }

    method ChildrenOrErr() returns (r: EdgeResult<seq<Account>>)
      ensures r == if loaded.children then Found(children) else NotLoaded
    {
      if loaded.children {
        return Found(children);
      }
      return NotLoaded;
    }

    method UsageLogsOrErr() returns (r: EdgeResult<seq<UsageRow>>)
      ensures r == if loaded.usageLogs then Found(usageLogs) else NotLoaded
    {
      if loaded.usageLogs {
        return Found(usageLogs);
      }
      return NotLoaded;
    }

    method ProxyOrErr() returns (r: EdgeResult<ProxyRow>)
      ensures r == OrErr(proxy, loaded.proxy)
    {
      if proxy.Some? {
        return Found(proxy.value);
      } else if loaded.proxy {
        return NotFound;
      }
      return NotLoaded;
    }
  }

  /** Node n carries tree t, and everything reachable through its edges lies in R. */
  ghost predicate Shows(n: Account, t: Tree, R: set<Account>)
    reads R
    decreases t
  {
    && n in R
    && n.row == t.row && n.loaded == t.loaded
    && n.groups == t.groups && n.proxy == t.proxy && n.usageLogs == t.usageLogs
    && (n.parent == null <==> t.parent.None?)
    && (n.parent != null ==> Shows(n.parent, t.parent.value, R))
    && |n.children| == |t.children|
    && forall i | 0 <= i < |t.children| :: Shows(n.children[i], t.children[i], R)
  }

  lemma {:induction false} ShowsMore(n: Account, t: Tree, R: set<Account>, R': set<Account>)
    requires Shows(n, t, R) && R <= R'
    ensures Shows(n, t, R')
    decreases t
  {
    if n.parent != null { ShowsMore(n.parent, t.parent.value, R, R'); }
    forall i | 0 <= i < |t.children| ensures Shows(n.children[i], t.children[i], R') {
      ShowsMore(n.children[i], t.children[i], R, R');
    }
  }

  /** The errors of the loads, and the panic of a failed type assertion. */
  datatype LoadError = UnexpectedForeignKey(key: int) | NilForeignKey(node: int) | UnexpectedNode(node: int) | AssertionPanic

  /** The run of q returns ts and leaves the builder q' behind. */
  ghost predicate Answer(db: Database, q: Plan, ts: seq<Tree>, q': Plan) {
    forall k {:trigger Open(Answers, k)} :: Open(Answers, k) ==> !Panics(db, q) && ts == Batched(db, q) && q' == After(db, q)
  }

  /** A load either succeeds or panics for the given cause. */
  ghost predicate Outcome(err: Option<LoadError>, cause: bool) {
    err.None? || (err == Some(AssertionPanic) && cause)
  }

  /** The run of q panics. */
  ghost predicate Fails(db: Database, q: Plan) {
    forall k {:trigger Open(Answers, k)} :: Open(Answers, k) ==> Panics(db, q)
  }

  lemma {:induction false} AnswerIs(db: Database, q: Plan, ts: seq<Tree>, q': Plan)
    requires Answer(db, q, ts, q')
    ensures Run(db, q) == Returned(ts) && q' == After(db, q)
  {
    assert Open(Answers, 0);
  }

  lemma FailsIs(db: Database, q: Plan)
    requires Fails(db, q)
    ensures Run(db, q) == Panicked
  {
    assert Open(Answers, 0);
  }

  /** Distinct node objects carrying the given rows. */
  ghost predicate NodesOf(nodes: seq<Account>, rows: seq<AccountRow>)
    reads nodes
  {
    && |nodes| == |rows|
    && (forall i | 0 <= i < |nodes| :: nodes[i].row == rows[i])
    && (forall i, j | 0 <= i < j < |nodes| :: nodes[i] != nodes[j])
  }

  lemma {:induction false} NoKeys(fk: AccountRow -> Option<int>, rows: seq<AccountRow>)
    requires Keys(fk, rows) == []
    ensures forall i | 0 <= i < |rows| :: fk(rows[i]).None?
  {
    if rows != [] { NoKeys(fk, rows[..|rows| - 1]); }
  }

  // What each load puts on the nodes with the given rows.

  ghost predicate GroupsSpread(rows: seq<AccountRow>, found: seq<seq<GroupRow>>, js: seq<JoinRow>) {
    |found| == |rows| && forall k {:trigger Open(Spreads, k)} :: Open(Spreads, k) ==>
      forall i | 0 <= i < |rows| :: found[i] == if IsLast(rows, i) then GroupsOf(js, rows[i].id) else []
  }

  ghost predicate ProxySpread(rows: seq<AccountRow>, found: seq<Option<ProxyRow>>, ps: seq<ProxyRow>) {
    |found| == |rows| && forall k {:trigger Open(Spreads, k)} :: Open(Spreads, k) ==>
      forall i | 0 <= i < |rows| :: found[i] == PickProxy(rows[i], ps)
  }

  ghost predicate UsageSpread(rows: seq<AccountRow>, found: seq<seq<UsageRow>>, us: seq<UsageRow>) {
    |found| == |rows| && forall k {:trigger Open(Spreads, k)} :: Open(Spreads, k) ==>
      forall i | 0 <= i < |rows| :: found[i] == PickUsage(rows, i, us)
  }

  ghost predicate ParentsSpread(rows: seq<AccountRow>, found: seq<Account?>, ps: seq<Tree>, R: set<Account>)
    reads R
  {
    |found| == |rows| && forall k {:trigger Open(Spreads, k)} :: Open(Spreads, k) ==>
      forall i | 0 <= i < |rows| :: ShowsParent(found[i], rows[i], ps, R)
  }

  ghost predicate ChildrenSpread(rows: seq<AccountRow>, found: seq<seq<Account>>, cs: seq<Tree>, R: set<Account>)
    reads R
  {
    |found| == |rows| && forall k {:trigger Open(Spreads, k)} :: Open(Spreads, k) ==>
      forall i | 0 <= i < |rows| :: ShowsChildren(found[i], rows, i, cs, R)
  }

  // ----- many-to-one -----

  /** nodeids lists, under each key, exactly the nodes whose row holds that foreign key. */
  ghost predicate ByKey(fk: AccountRow -> Option<int>, nodes: seq<Account>, rows: seq<AccountRow>,
                        nodeids: map<int, seq<Account>>)
    requires |nodes| == |rows|
  {
    && (forall k, n | k in nodeids && n in nodeids[k] :: exists j | 0 <= j < |nodes| :: nodes[j] == n && fk(rows[j]) == Some(k))
    && (forall j | 0 <= j < |nodes| && fk(rows[j]).Some? ::
          fk(rows[j]).value in nodeids && nodes[j] in nodeids[fk(rows[j]).value])
  }

  /** The first loop of loadParent and loadProxy: the distinct non-null keys, and the nodes under each. */
  method IndexByKey(fk: AccountRow -> Option<int>, nodes: seq<Account>, ghost rows: seq<AccountRow>)
    returns (ids: seq<int>, nodeids: map<int, seq<Account>>)
    requires NodesOf(nodes, rows)
    ensures ids == Keys(fk, rows)
    ensures forall k :: k in nodeids <==> k in ids
    ensures ByKey(fk, nodes, rows, nodeids)
  {
    ids, nodeids := [], map[];
    for i := 0 to |nodes|
      invariant ids == Keys(fk, rows[..i])
      invariant forall k :: k in nodeids <==> k in ids
      invariant ByKey(fk, nodes[..i], rows[..i], nodeids)
    {
      KeysSnoc(fk, rows, i);
      ghost var before := nodeids;
      if fk(nodes[i].row).Some? {
        var key := fk(nodes[i].row).value;
        if key !in nodeids {
          ids := ids + [key];
          nodeids := nodeids[key := []];
        }
        nodeids := nodeids[key := nodeids[key] + [nodes[i]]];
      }
      ByKeyStep(fk, nodes, rows, i, before, nodeids);
    }
    assert rows[..|nodes|] == rows && nodes[..|nodes|] == nodes;
  }

  lemma KeysSnoc(fk: AccountRow -> Option<int>, rows: seq<AccountRow>, i: nat)
    requires i < |rows|
    ensures Keys(fk, rows[..i + 1])
         == if fk(rows[i]).None? || fk(rows[i]).value in Keys(fk, rows[..i]) then Keys(fk, rows[..i])
            else Keys(fk, rows[..i]) + [fk(rows[i]).value]
  {
    assert rows[..i + 1][..i] == rows[..i];
  }

  lemma ByKeyStep(fk: AccountRow -> Option<int>, nodes: seq<Account>, rows: seq<AccountRow>, i: nat,
                  before: map<int, seq<Account>>, after: map<int, seq<Account>>)
    requires |nodes| == |rows| && i < |nodes| && ByKey(fk, nodes[..i], rows[..i], before)
    requires after == match fk(rows[i])
                      case None => before
                      case Some(k) => before[k := (if k in before then before[k] else []) + [nodes[i]]]
    ensures ByKey(fk, nodes[..i + 1], rows[..i + 1], after)
  {
    var ns, rs := nodes[..i + 1], rows[..i + 1];
    assert forall j | 0 <= j < i :: ns[j] == nodes[..i][j] && rs[j] == rows[..i][j];
    assert ns[i] == nodes[i] && rs[i] == rows[i];
    forall k, n | k in after && n in after[k]
      ensures exists j | 0 <= j < |ns| :: ns[j] == n && fk(rs[j]) == Some(k)
    {
      if k in before && n in before[k] {
        var j :| 0 <= j < i && nodes[..i][j] == n && fk(rows[..i][j]) == Some(k);
        assert ns[j] == n && fk(rs[j]) == Some(k);
      } else {
        assert ns[i] == n && fk(rs[i]) == Some(k);
      }
    }
  }

  /** The last of the neighbors whose tree has id k. */
  ghost function PickLast(k: int, ps: seq<Tree>, ns: seq<Account>): Account?
    requires |ps| == |ns|
  {
    if ps == [] then null
    else if ps[|ps| - 1].row.id == k then ns[|ns| - 1]
    else PickLast(k, ps[..|ps| - 1], ns[..|ns| - 1])
  }

  ghost function PickParent(r: AccountRow, ps: seq<Tree>, ns: seq<Account>): Account?
    requires |ps| == |ns|
  {
    if r.parentId.Some? then PickLast(r.parentId.value, ps, ns) else null
  }

  lemma PickParentSnoc(r: AccountRow, ps: seq<Tree>, ns: seq<Account>, m: nat)
    requires |ps| == |ns| && m < |ns|
    ensures PickParent(r, ps[..m + 1], ns[..m + 1])
         == if r.parentId == Some(ps[m].row.id) then ns[m] else PickParent(r, ps[..m], ns[..m])
  {
    assert ps[..m + 1][..m] == ps[..m] && ns[..m + 1][..m] == ns[..m];
  }

  lemma {:induction false} PickShows(k: int, ps: seq<Tree>, ns: seq<Account>, R: set<Account>)
    requires |ps| == |ns| && forall m | 0 <= m < |ps| :: Shows(ns[m], ps[m], R)
    ensures PickLast(k, ps, ns) == null <==> FindLast(TreeIdIs(k), ps).None?
    ensures PickLast(k, ps, ns) != null ==> Shows(PickLast(k, ps, ns), FindLast(TreeIdIs(k), ps).value, R)
  {
    if ps != [] { PickShows(k, ps[..|ps| - 1], ns[..|ns| - 1], R); }
  }

  /** Object p (or null) is what the parent load puts on a node of row r. */
  ghost predicate ShowsParent(p: Account?, r: AccountRow, ps: seq<Tree>, R: set<Account>)
    reads R
  {
    var t := if r.parentId.Some? then FindLast(TreeIdIs(r.parentId.value), ps) else None;
    if p == null then t.None? else t.Some? && Shows(p, t.value, R)
  }

  /** The database returns only parents whose ids were asked for. */
  lemma ParentIdsAsked(db: Database, asked: Plan, ids: seq<int>, ps: seq<Tree>, q': Plan)
    requires asked.preds != [] && asked.preds[|asked.preds| - 1] == IdIn(ids)
    requires Answer(db, asked, ps, q')
    ensures forall m | 0 <= m < |ps| :: ps[m].row.id in ids
  {
    AnswerIs(db, asked, ps, q');
    forall m | 0 <= m < |ps| ensures ps[m].row.id in ids {
      SelectedAccepted(db, asked, m);
      ProjectKeepsKeys(asked, Selected(db, asked)[m]);
    }
  }

  lemma SelectedAccepted(db: Database, q: Plan, m: nat)
    requires m < |Selected(db, q)|
    ensures All(q.preds)(Selected(db, q)[m])
  {
    var kept := Filter(All(q.preds), Source(db, q));
    var once := if IsUnique(q) then Distinct(Project(Columns(q)), kept) else kept;
    var x := Selected(db, q)[m];
    assert x in Sort(q.order, once);
    SortIn(q.order, once);
    DistinctCorrect(Project(Columns(q)), kept);
    FilterIn(All(q.preds), Source(db, q), x);
  }

  /** The second loop of loadParent. */
  method SpreadParent(nodes: seq<Account>, ghost rows: seq<AccountRow>, nodeids: map<int, seq<Account>>,
                      neighbors: seq<Account>, ghost ps: seq<Tree>, ghost R: set<Account>)
    returns (err: Option<LoadError>, ghost found: seq<Account?>)
    requires NodesOf(nodes, rows) && ByKey(ParentOf(), nodes, rows, nodeids)
    requires forall n | n in nodes :: n.parent == null && n !in R
    requires |neighbors| == |ps| && forall m | 0 <= m < |ps| :: Shows(neighbors[m], ps[m], R)
    requires forall m | 0 <= m < |ps| :: ps[m].row.id in nodeids
    modifies (set n | n in nodes)`parent
    ensures err.None? && |found| == |nodes|
    ensures (forall i | 0 <= i < |nodes| :: nodes[i].parent == found[i]) && ParentsSpread(rows, found, ps, R)
  {
    err := None;
    var m := 0;
    while m < |neighbors| && err.None?
      invariant m <= |neighbors| && err.None?
      invariant forall k | 0 <= k < |ps| :: Shows(neighbors[k], ps[k], R)
      invariant forall i | 0 <= i < |nodes| :: nodes[i].parent == PickParent(rows[i], ps[..m], neighbors[..m])
    {
      var n, id := neighbors[m], neighbors[m].row.id;
      if id !in nodeids {
        err := Some(UnexpectedForeignKey(id));
      } else {
        AssignParent(nodes, rows, nodeids, n);
        forall i | 0 <= i < |nodes| ensures nodes[i].parent == PickParent(rows[i], ps[..m + 1], neighbors[..m + 1]) {
          PickParentSnoc(rows[i], ps, neighbors, m);
        }
      }
      m := m + 1;
    }
    assert ps[..|ps|] == ps && neighbors[..|ps|] == neighbors;
    found := seq(|nodes|, i requires 0 <= i < |rows| => PickParent(rows[i], ps, neighbors));
    forall i | 0 <= i < |nodes| ensures ShowsParent(found[i], rows[i], ps, R) {
      if rows[i].parentId.Some? { PickShows(rows[i].parentId.value, ps, neighbors, R); }
    }
  }

  method AssignParent(nodes: seq<Account>, ghost rows: seq<AccountRow>, nodeids: map<int, seq<Account>>, n: Account)
    requires NodesOf(nodes, rows) && ByKey(ParentOf(), nodes, rows, nodeids) && n.row.id in nodeids
    modifies (set n | n in nodes)`parent
    ensures forall i | 0 <= i < |nodes| ::
      nodes[i].parent == if rows[i].parentId == Some(n.row.id) then n else old(nodes[i].parent)
  {
    var listed := nodeids[n.row.id];
    for j := 0 to |listed|
      invariant forall i | 0 <= i < |nodes| :: nodes[i].parent == if nodes[i] in listed[..j] then n else old(nodes[i].parent)
    {
      assert listed[j] in nodeids[n.row.id];
      listed[j].parent := n;
    }
    assert listed[..|listed|] == listed;
  }

  method LoadProxy(db: Database, query: LeafQuery<ProxyRow>, nodes: seq<Account>, ghost rows: seq<AccountRow>)
    returns (err: Option<LoadError>, after: LeafQuery<ProxyRow>, ghost ps: seq<ProxyRow>, ghost found: seq<Option<ProxyRow>>)
    requires NodesOf(nodes, rows) && forall n | n in nodes :: n.proxy == None
    modifies (set n | n in nodes)`proxy
    ensures err.None?
    ensures after == if Keys(ProxyOf(), rows) == [] then query else LeafWhere(query, ProxyIn(Keys(ProxyOf(), rows)))
    ensures ps == LeafRows(db.proxies, LeafWhere(query, ProxyIn(Keys(ProxyOf(), rows))))
    ensures ProxySpread(rows, found, ps) && forall i | 0 <= i < |nodes| :: nodes[i].proxy == found[i]
  {
    var ids, nodeids := IndexByKey(ProxyOf(), nodes, rows);
    err, after, ps := None, query, LeafRows(db.proxies, LeafWhere(query, ProxyIn(ids)));
    found := seq(|rows|, i requires 0 <= i < |rows| => PickProxy(rows[i], ps));
    if |ids| == 0 {
      NoKeys(ProxyOf(), rows);
      return;
    }
    after := LeafWhere(query, ProxyIn(ids));
    ProxyIdsAsked(db.proxies, query, ids);
    err := SpreadProxy(nodes, rows, nodeids, LeafRows(db.proxies, after));
  }

  method SpreadProxy(nodes: seq<Account>, ghost rows: seq<AccountRow>, nodeids: map<int, seq<Account>>,
                     neighbors: seq<ProxyRow>)
    returns (err: Option<LoadError>)
    requires NodesOf(nodes, rows) && ByKey(ProxyOf(), nodes, rows, nodeids)
    requires forall n | n in nodes :: n.proxy == None
    requires forall m | 0 <= m < |neighbors| :: neighbors[m].id in nodeids
    modifies (set n | n in nodes)`proxy
    ensures err.None?
    ensures forall i | 0 <= i < |nodes| :: nodes[i].proxy == PickProxy(rows[i], neighbors)
  {
    err := None;
    var m := 0;
    while m < |neighbors| && err.None?
      invariant m <= |neighbors| && err.None?
      invariant forall i | 0 <= i < |nodes| :: nodes[i].proxy == PickProxy(rows[i], neighbors[..m])
    {
      var n := neighbors[m];
      assert neighbors[..m + 1][..m] == neighbors[..m];
      if n.id !in nodeids {
        err := Some(UnexpectedForeignKey(n.id));
      } else {
        AssignProxy(nodes, rows, nodeids, n);
      }
      m := m + 1;
    }
    assert neighbors[..|neighbors|] == neighbors;
  }

  ghost function PickProxy(r: AccountRow, ps: seq<ProxyRow>): Option<ProxyRow> {
    if r.proxyId.Some? then FindLast(ProxyIs(r.proxyId.value), ps) else None
  }

  method AssignProxy(nodes: seq<Account>, ghost rows: seq<AccountRow>, nodeids: map<int, seq<Account>>, n: ProxyRow)
    requires NodesOf(nodes, rows) && ByKey(ProxyOf(), nodes, rows, nodeids) && n.id in nodeids
    modifies (set n | n in nodes)`proxy
    ensures forall i | 0 <= i < |nodes| ::
      nodes[i].proxy == if rows[i].proxyId == Some(n.id) then Some(n) else old(nodes[i].proxy)
  {
    var listed := nodeids[n.id];
    for j := 0 to |listed|
      invariant forall i | 0 <= i < |nodes| :: nodes[i].proxy == if nodes[i] in listed[..j] then Some(n) else old(nodes[i].proxy)
    {
      assert listed[j] in nodeids[n.id];
      listed[j].proxy := Some(n);
    }
    assert listed[..|listed|] == listed;
  }

  lemma LeafAccepted<R>(table: seq<R>, q: LeafQuery<R>, p: R -> bool)
    ensures forall x | x in LeafRows(table, LeafWhere(q, p)) :: p(x)
  {
    var kept := Filter(All(q.preds + [p]), table);
    SortIn(q.order, kept);
    PageIn(SpecLimit(q.limit), SpecOffset(q.offset), Sort(q.order, kept));
    forall x | x in LeafRows(table, LeafWhere(q, p)) ensures p(x) {
      assert x in Page(SpecLimit(q.limit), SpecOffset(q.offset), Sort(q.order, kept));
      assert x in Sort(q.order, kept);
      assert x in kept;
      FilterIn(All(q.preds + [p]), table, x);
      AllSnoc(q.preds, p, x);
    }
  }

  lemma ProxyIdsAsked(table: seq<ProxyRow>, q: LeafQuery<ProxyRow>, ids: seq<int>)
    ensures var ps := LeafRows(table, LeafWhere(q, ProxyIn(ids))); forall m | 0 <= m < |ps| :: ps[m].id in ids
  {
    LeafAccepted(table, q, ProxyIn(ids));
    var ps := LeafRows(table, LeafWhere(q, ProxyIn(ids)));
    forall m | 0 <= m < |ps| ensures ps[m].id in ids { assert ps[m] in ps; }
  }

  // ----- one-to-many -----

  /** The index of the last row with id k, or -1. */
  ghost function LastAt(rows: seq<AccountRow>, k: int): (i: int)
    ensures -1 <= i < |rows|
  {
    if rows == [] then -1
    else if rows[|rows| - 1].id == k then |rows| - 1
    else LastAt(rows[..|rows| - 1], k)
  }

  lemma {:induction false} LastAtIsLast(rows: seq<AccountRow>, k: int)
    ensures LastAt(rows, k) >= 0 ==> rows[LastAt(rows, k)].id == k
    ensures forall j | LastAt(rows, k) < j < |rows| :: rows[j].id != k
  {
    if rows != [] && rows[|rows| - 1].id != k { LastAtIsLast(rows[..|rows| - 1], k); }
  }

  /** nodeids holds, under each id, the last node with that id. */
  ghost predicate ById(nodes: seq<Account>, rows: seq<AccountRow>, nodeids: map<int, Account>)
    requires |nodes| == |rows|
  {
    && (forall k :: k in nodeids <==> LastAt(rows, k) >= 0)
    && (forall k | k in nodeids :: nodeids[k] == nodes[LastAt(rows, k)])
  }

  lemma ByIdLast(nodes: seq<Account>, rows: seq<AccountRow>, nodeids: map<int, Account>, i: nat)
    requires |nodes| == |rows| && i < |nodes| && ById(nodes, rows, nodeids)
    requires forall j, k | 0 <= j < k < |nodes| :: nodes[j] != nodes[k]
    ensures rows[i].id in nodeids
    ensures forall k | k in nodeids :: nodeids[k] == nodes[i] <==> rows[i].id == k && IsLast(rows, i)
  {
    LastAtIsLast(rows, rows[i].id);
    forall k | k in nodeids ensures nodeids[k] == nodes[i] <==> rows[i].id == k && IsLast(rows, i) {
      LastAtIsLast(rows, k);
    }
  }

  /** The first loop of the one-to-many and many-to-many loads. */
  method IndexById(nodes: seq<Account>, ghost rows: seq<AccountRow>) returns (fks: seq<int>, nodeids: map<int, Account>)
    requires NodesOf(nodes, rows)
    ensures fks == Map(IdOf(), rows) && ById(nodes, rows, nodeids)
    ensures forall k | k in fks :: k in nodeids
  {
    fks, nodeids := [], map[];
    for i := 0 to |nodes|
      invariant fks == Map(IdOf(), rows[..i])
      invariant ById(nodes[..i], rows[..i], nodeids)
      invariant forall k | k in fks :: k in nodeids
    {
      assert rows[..i + 1] == rows[..i] + [rows[i]];
      MapSnoc(IdOf(), rows[..i], rows[i]);
      assert rows[..i + 1][..i] == rows[..i];
      fks := fks + [nodes[i].row.id];
      nodeids := nodeids[nodes[i].row.id := nodes[i]];
    }
    assert rows[..|nodes|] == rows && nodes[..|nodes|] == nodes;
  }

  /** The neighbors at the positions whose tree satisfies p. */
  ghost function Pick(p: Tree -> bool, ts: seq<Tree>, ns: seq<Account>): seq<Account>
    requires |ts| == |ns|
  {
    if ts == [] then []
    else
      var rest := Pick(p, ts[..|ts| - 1], ns[..|ns| - 1]);
      if p(ts[|ts| - 1]) then rest + [ns[|ns| - 1]] else rest
  }

  lemma PickSnoc(p: Tree -> bool, ts: seq<Tree>, ns: seq<Account>, m: nat)
    requires |ts| == |ns| && m < |ns|
    ensures Pick(p, ts[..m + 1], ns[..m + 1])
         == if p(ts[m]) then Pick(p, ts[..m], ns[..m]) + [ns[m]] else Pick(p, ts[..m], ns[..m])
  {
    assert ts[..m + 1][..m] == ts[..m] && ns[..m + 1][..m] == ns[..m];
  }

  ghost predicate ShowsAll(ns: seq<Account>, ts: seq<Tree>, R: set<Account>)
    reads R
  {
    |ns| == |ts| && forall k | 0 <= k < |ts| :: Shows(ns[k], ts[k], R)
  }

  lemma {:induction false} PickShowsAll(p: Tree -> bool, ts: seq<Tree>, ns: seq<Account>, R: set<Account>)
    requires ShowsAll(ns, ts, R)
    ensures ShowsAll(Pick(p, ts, ns), Filter(p, ts), R)
  {
    if ts != [] { PickShowsAll(p, ts[..|ts| - 1], ns[..|ns| - 1], R); }
  }

  ghost function PickChildren(rows: seq<AccountRow>, i: nat, cs: seq<Tree>, ns: seq<Account>): seq<Account>
    requires i < |rows| && |cs| == |ns|
  {
    if IsLast(rows, i) then Pick(TreeParentIs(rows[i].id), cs, ns) else []
  }

  lemma PickChildrenSnoc(rows: seq<AccountRow>, i: nat, cs: seq<Tree>, ns: seq<Account>, m: nat, key: int)
    requires i < |rows| && |cs| == |ns| && m < |ns| && cs[m].row.parentId == Some(key)
    ensures PickChildren(rows, i, cs[..m + 1], ns[..m + 1])
         == PickChildren(rows, i, cs[..m], ns[..m])
            + if rows[i].id == key && IsLast(rows, i) then [ns[m]] else []
  {
    PickSnoc(TreeParentIs(rows[i].id), cs, ns, m);
  }

  /** The objects of found are what the children load puts on node i. */
  ghost predicate ShowsChildren(found: seq<Account>, rows: seq<AccountRow>, i: nat, cs: seq<Tree>, R: set<Account>)
    requires i < |rows|
    reads R
  {
    ShowsAll(found, if IsLast(rows, i) then Filter(TreeParentIs(rows[i].id), cs) else [], R)
  }

  /** The database returns only children whose parents were asked for. */
  lemma ChildKeysAsked(db: Database, sub: Plan, asked: Plan, ids: seq<int>, cs: seq<Tree>, q': Plan)
    requires asked == Where(KeepParentColumn(sub), ParentIn(ids))
    requires Answer(db, asked, cs, q')
    ensures forall m | 0 <= m < |cs| :: cs[m].row.parentId.Some? && cs[m].row.parentId.value in ids
  {
    AnswerIs(db, asked, cs, q');
    forall m | 0 <= m < |cs| ensures cs[m].row.parentId.Some? && cs[m].row.parentId.value in ids {
      SelectedAccepted(db, asked, m);
      var x := Selected(db, asked)[m];
      AllSnoc(KeepParentColumn(sub).preds, ParentIn(ids), x);
      ProjectKeepsKeys(sub, x);
    }
  }

  /** The second loop of loadChildren. */
  method SpreadChildren(nodes: seq<Account>, ghost rows: seq<AccountRow>, nodeids: map<int, Account>,
                        neighbors: seq<Account>, ghost cs: seq<Tree>)
    returns (err: Option<LoadError>)
    requires NodesOf(nodes, rows) && ById(nodes, rows, nodeids)
    requires forall i | 0 <= i < |nodes| :: nodes[i].children == []
    requires |neighbors| == |cs|
    requires forall m | 0 <= m < |cs| :: neighbors[m].row == cs[m].row
    requires forall m | 0 <= m < |cs| :: cs[m].row.parentId.Some? && cs[m].row.parentId.value in nodeids
    modifies (set n | n in nodes)`children
    ensures err.None?
    ensures forall i | 0 <= i < |nodes| :: nodes[i].children == PickChildren(rows, i, cs, neighbors)
  {
    err := None;
    var m := 0;
    while m < |neighbors| && err.None?
      invariant m <= |neighbors| && err.None?
      invariant forall i | 0 <= i < |nodes| :: nodes[i].children == PickChildren(rows, i, cs[..m], neighbors[..m])
    {
      var n, id, fk := neighbors[m], neighbors[m].row.id, neighbors[m].row.parentId;
      var key := if fk.Some? then fk.value else 0;
      if fk.None? {
        err := Some(NilForeignKey(id));
      } else if key !in nodeids {
        err := Some(UnexpectedForeignKey(key));
      } else {
        assert cs[m].row.parentId == Some(key);
        AssignChild(nodes, rows, nodeids, key, n);
        forall i | 0 <= i < |nodes| ensures nodes[i].children == PickChildren(rows, i, cs[..m + 1], neighbors[..m + 1]) {
          PickChildrenSnoc(rows, i, cs, neighbors, m, key);
        }
      }
      m := m + 1;
    }
    assert cs[..|cs|] == cs && neighbors[..|cs|] == neighbors;
  }

  lemma ChildrenShown(rows: seq<AccountRow>, cs: seq<Tree>, ns: seq<Account>,
                      R: set<Account>) returns (found: seq<seq<Account>>)
    requires ShowsAll(ns, cs, R)
    ensures |found| == |rows| && forall i | 0 <= i < |rows| :: found[i] == PickChildren(rows, i, cs, ns)
    ensures ChildrenSpread(rows, found, cs, R)
  {
    found := seq(|rows|, i requires 0 <= i < |rows| => PickChildren(rows, i, cs, ns));
    forall i | 0 <= i < |rows| ensures ShowsChildren(found[i], rows, i, cs, R) {
      PickShowsAll(TreeParentIs(rows[i].id), cs, ns, R);
    }
  }

  method FillChildren(nodes: seq<Account>, ghost rows: seq<AccountRow>, nodeids: map<int, Account>,
                      neighbors: seq<Account>, ghost cs: seq<Tree>, ghost R: set<Account>)
    returns (err: Option<LoadError>, ghost found: seq<seq<Account>>)
    requires NodesOf(nodes, rows) && ById(nodes, rows, nodeids) && ShowsAll(neighbors, cs, R)
    requires forall n | n in nodes :: n.children == [] && n !in R
    requires forall m | 0 <= m < |cs| :: cs[m].row.parentId.Some? && cs[m].row.parentId.value in nodeids
    modifies (set n | n in nodes)`children
    ensures err.None? && |found| == |nodes|
    ensures (forall i | 0 <= i < |nodes| :: nodes[i].children == found[i]) && ChildrenSpread(rows, found, cs, R)
  {
    err := SpreadChildren(nodes, rows, nodeids, neighbors, cs);
    found := ChildrenShown(rows, cs, neighbors, R);
  }

  method AssignChild(nodes: seq<Account>, ghost rows: seq<AccountRow>, nodeids: map<int, Account>, fk: int, n: Account)
    requires NodesOf(nodes, rows) && ById(nodes, rows, nodeids) && fk in nodeids
    modifies (set n | n in nodes)`children
    ensures forall i | 0 <= i < |nodes| ::
      nodes[i].children == if rows[i].id == fk && IsLast(rows, i) then old(nodes[i].children) + [n] else old(nodes[i].children)
  {
    var node := nodeids[fk];
    node.children := node.children + [n];
    forall i | 0 <= i < |nodes| ensures nodes[i] == node <==> rows[i].id == fk && IsLast(rows, i) {
      ByIdLast(nodes, rows, nodeids, i);
    }
  }

  ghost function PickUsage(rows: seq<AccountRow>, i: nat, us: seq<UsageRow>): seq<UsageRow>
    requires i < |rows|
  {
    if IsLast(rows, i) then Filter(UsageIs(rows[i].id), us) else []
  }

  method LoadUsageLogs(db: Database, query: LeafQuery<UsageRow>, nodes: seq<Account>, ghost rows: seq<AccountRow>)
    returns (err: Option<LoadError>, after: LeafQuery<UsageRow>, ghost us: seq<UsageRow>, ghost found: seq<seq<UsageRow>>)
    requires NodesOf(nodes, rows) && forall i | 0 <= i < |nodes| :: nodes[i].usageLogs == []
    modifies (set n | n in nodes)`usageLogs
    ensures err.None?
    ensures after == LeafWhere(query, UsageIn(Map(IdOf(), rows))) && us == LeafRows(db.usageLogs, after)
    ensures UsageSpread(rows, found, us) && forall i | 0 <= i < |nodes| :: nodes[i].usageLogs == found[i]
  {
    var fks, nodeids := IndexById(nodes, rows);
    after := LeafWhere(query, UsageIn(fks));
    var neighbors := LeafRows(db.usageLogs, after);
    LeafAccepted(db.usageLogs, query, UsageIn(fks));
    us := neighbors;
    found := seq(|rows|, i requires 0 <= i < |rows| => PickUsage(rows, i, us));
    err := SpreadUsage(nodes, rows, nodeids, neighbors);
  }

  method SpreadUsage(nodes: seq<Account>, ghost rows: seq<AccountRow>, nodeids: map<int, Account>,
                     neighbors: seq<UsageRow>)
    returns (err: Option<LoadError>)
    requires NodesOf(nodes, rows) && ById(nodes, rows, nodeids)
    requires forall i | 0 <= i < |nodes| :: nodes[i].usageLogs == []
    requires forall n | n in neighbors :: n.accountId in nodeids
    modifies (set n | n in nodes)`usageLogs
    ensures err.None?
    ensures forall i | 0 <= i < |nodes| :: nodes[i].usageLogs == PickUsage(rows, i, neighbors)
  {
    err := None;
    var m := 0;
    while m < |neighbors| && err.None?
      invariant m <= |neighbors| && err.None?
      invariant forall i | 0 <= i < |nodes| :: nodes[i].usageLogs == PickUsage(rows, i, neighbors[..m])
    {
      var n, fk := neighbors[m], neighbors[m].accountId;
      if fk !in nodeids {
        err := Some(UnexpectedForeignKey(fk));
      } else {
        AssignUsage(nodes, rows, nodeids, fk, n);
        forall i | 0 <= i < |nodes| ensures nodes[i].usageLogs == PickUsage(rows, i, neighbors[..m + 1]) {
          PickUsageSnoc(rows, i, neighbors, m);
        }
      }
      m := m + 1;
    }
    assert neighbors[..|neighbors|] == neighbors;
  }

  lemma PickUsageSnoc(rows: seq<AccountRow>, i: nat, us: seq<UsageRow>, m: nat)
    requires i < |rows| && m < |us|
    ensures PickUsage(rows, i, us[..m + 1])
         == PickUsage(rows, i, us[..m]) + if rows[i].id == us[m].accountId && IsLast(rows, i) then [us[m]] else []
  {
    assert us[..m + 1] == us[..m] + [us[m]];
    FilterSnoc(UsageIs(rows[i].id), us[..m], us[m]);
  }

  method AssignUsage(nodes: seq<Account>, ghost rows: seq<AccountRow>, nodeids: map<int, Account>, fk: int, n: UsageRow)
    requires NodesOf(nodes, rows) && ById(nodes, rows, nodeids) && fk in nodeids
    modifies (set n | n in nodes)`usageLogs
    ensures forall i | 0 <= i < |nodes| ::
      nodes[i].usageLogs == if rows[i].id == fk && IsLast(rows, i) then old(nodes[i].usageLogs) + [n] else old(nodes[i].usageLogs)
  {
    var node := nodeids[fk];
    node.usageLogs := node.usageLogs + [n];
    forall i | 0 <= i < |nodes| ensures nodes[i] == node <==> rows[i].id == fk && IsLast(rows, i) {
      ByIdLast(nodes, rows, nodeids, i);
    }
  }

  // ----- many-to-many -----

  ghost function PickGroups(rows: seq<AccountRow>, i: nat, joined: seq<JoinRow>, ds: seq<JoinRow>): seq<GroupRow>
    requires i < |rows|
  {
    if IsLast(rows, i) then Map(GroupOf(), Filter(JoinsGroup(joined, rows[i].id), ds)) else []
  }

  /** nids holds, under each group, the nodes some row joins to it. */
  ghost predicate ByGroup(joined: seq<JoinRow>, byId: map<int, Account>, nids: map<int, set<Account>>)
    requires forall j | j in joined :: j.accountId in byId
  {
    && (forall g :: g in nids <==> Mentions(joined, g))
    && (forall g | g in nids :: nids[g] == Members(joined, byId, g))
  }

  /** The nodes that some row joins to group g. */
  ghost function Members(joined: seq<JoinRow>, byId: map<int, Account>, g: int): set<Account>
    requires forall j | j in joined :: j.accountId in byId
  {
    set k | 0 <= k < |joined| && joined[k].group.id == g :: byId[joined[k].accountId]
  }

  method LoadGroups(db: Database, query: GroupsQuery, nodes: seq<Account>, ghost rows: seq<AccountRow>)
    returns (err: Option<LoadError>, after: GroupsQuery, ghost js: seq<JoinRow>, ghost found: seq<seq<GroupRow>>)
    requires NodesOf(nodes, rows) && forall i | 0 <= i < |nodes| :: nodes[i].groups == []
    modifies (set n | n in nodes)`groups
    ensures after == AddJoin(query, Map(IdOf(), rows)) && js == JoinedRows(db.groupJoin, after)
    ensures err == if query.joins != [] && js != [] then Some(AssertionPanic) else None
    ensures err.None? ==> GroupsSpread(rows, found, js) && forall i | 0 <= i < |nodes| :: nodes[i].groups == found[i]
  {
    var edgeIds, byId := IndexById(nodes, rows);
    after := AddJoin(query, edgeIds);
    var joined := JoinedRows(db.groupJoin, after);
    js := joined;
    if query.joins == [] {
      FirstJoin(db.groupJoin, query, edgeIds);
      LeafAccepted(db.groupJoin, Lifted(query.asked), JoinedIn(edgeIds));
    }
    var neighbors, nids;
    SecondColumn(after.joins);
    err, neighbors, nids := CollectGroups(joined, ColumnsUnder(after.joins), byId);
    found := seq(|rows|, i requires 0 <= i < |rows| => PickGroups(rows, i, joined, Distinct(GroupIdOf(), joined)));
    if err.Some? {
      return;
    }
    GroupsFound(rows, found, joined);
    GroupMembership(nodes, rows, byId, joined, nids);
    err := SpreadGroups(nodes, rows, joined, neighbors, nids);
  }

  lemma {:induction false} GroupsFound(rows: seq<AccountRow>, found: seq<seq<GroupRow>>, js: seq<JoinRow>)
    requires |found| == |rows| && forall i | 0 <= i < |rows| :: found[i] == PickGroups(rows, i, js, Distinct(GroupIdOf(), js))
    ensures GroupsSpread(rows, found, js)
  {
  }

  /** Whether Group.scanValues allocates a NullInt64 for a column. */
  predicate ScansInt(column: string) {
    column in ["id", "default_validity_days", "fallback_group_id", "fallback_group_id_on_invalid_request", "sort_order", "rpm_limit"]
  }

  /** The first columns of a groups query: each join puts an account id before those selected so far, and of a group's
      own columns the id comes first, whatever is selected. */
  function ColumnsUnder(joins: seq<seq<int>>): seq<string> {
    if joins == [] then ["id"] else ["account_id"] + ColumnsUnder(joins[..|joins| - 1])
  }

  lemma {:induction false} SecondColumn(joins: seq<seq<int>>)
    requires joins != []
    ensures |ColumnsUnder(joins)| >= 2 && (ScansInt(ColumnsUnder(joins)[1]) <==> |joins| == 1)
  {
    var init := joins[..|joins| - 1];
    if init != [] { assert ColumnsUnder(init)[0] == "account_id" && |"account_id"| == 10; }
  }

  /** The wrapped row callback: a row of a group seen before only adds its account to the group's set.  It takes the
      first column of a row for the account and the second, scanned as a column of a group, for the group's id; if that
      is no integer column, the assertion on its type panics. */
  method CollectGroups(joined: seq<JoinRow>, columns: seq<string>, byId: map<int, Account>)
    returns (err: Option<LoadError>, neighbors: seq<GroupRow>, nids: map<int, set<Account>>)
    requires |columns| >= 2 && (ScansInt(columns[1]) ==> forall j | j in joined :: j.accountId in byId)
    ensures err == if !ScansInt(columns[1]) && joined != [] then Some(AssertionPanic) else None
    ensures err.None? ==> neighbors == Map(GroupOf(), Distinct(GroupIdOf(), joined))
    ensures err.None? ==> (forall j | j in joined :: j.accountId in byId) && ByGroup(joined, byId, nids)
  {
    err, neighbors, nids := None, [], map[];
    for m := 0 to |joined|
      invariant err.None? && (m > 0 ==> ScansInt(columns[1]))
      invariant neighbors == Map(GroupOf(), Distinct(GroupIdOf(), joined[..m]))
      invariant ByGroup(joined[..m], byId, nids)
    {
      if !ScansInt(columns[1]) {
        err := Some(AssertionPanic);
        return;
      }
      var outValue, inValue := joined[m].accountId, joined[m].group.id;
      assert joined[m] in joined;
      ghost var before := nids;
      if inValue !in nids {
        nids := nids[inValue := {byId[outValue]}];
        neighbors := neighbors + [joined[m].group];
      } else {
        nids := nids[inValue := nids[inValue] + {byId[outValue]}];
      }
      assert joined[..m + 1] == joined[..m] + [joined[m]];
      ByGroupStep(joined[..m], joined[m], byId, before, nids);
      NeighborsStep(joined[..m], joined[m]);
    }
    assert joined[..|joined|] == joined;
  }

  lemma {:induction false} NeighborsStep(init: seq<JoinRow>, last: JoinRow)
    ensures Map(GroupOf(), Distinct(GroupIdOf(), init + [last]))
         == Map(GroupOf(), Distinct(GroupIdOf(), init)) + if Mentions(init, last.group.id) then [] else [last.group]
  {
    DistinctSnoc(init, last);
    MapSnoc(GroupOf(), Distinct(GroupIdOf(), init), last);
  }

  lemma ByGroupStep(init: seq<JoinRow>, last: JoinRow, byId: map<int, Account>, before: map<int, set<Account>>,
                    after: map<int, set<Account>>)
    requires forall j | j in init + [last] :: j.accountId in byId
    requires (forall j | j in init :: j.accountId in byId) && last.accountId in byId && ByGroup(init, byId, before)
    requires after == before[last.group.id := if last.group.id in before
                                              then before[last.group.id] + {byId[last.accountId]} else {byId[last.accountId]}]
    ensures ByGroup(init + [last], byId, after)
  {
    var js := init + [last];
    assert forall k | 0 <= k < |init| :: js[k] == init[k];
    assert js[|init|] == last;
    forall g ensures g in after <==> Mentions(js, g) {
      if k :| 0 <= k < |init| && init[k].group.id == g { assert js[k].group.id == g; }
    }
    forall g | g in after ensures after[g] == Members(js, byId, g) {
      MembersSnoc(init, last, byId, g);
      if g !in before {
        forall k | 0 <= k < |init| ensures init[k].group.id != g {}
      }
    }
  }

  lemma MembersSnoc(init: seq<JoinRow>, last: JoinRow, byId: map<int, Account>, g: int)
    requires forall j | j in init + [last] :: j.accountId in byId
    ensures Members(init + [last], byId, g)
         == Members(init, byId, g) + if last.group.id == g then {byId[last.accountId]} else {}
  {
    var js := init + [last];
    assert js[|init|] == last && forall k | 0 <= k < |init| :: js[k] == init[k];
    forall n | n in Members(init, byId, g) ensures n in Members(js, byId, g) {
      var k :| 0 <= k < |init| && init[k].group.id == g && byId[init[k].accountId] == n;
      assert js[k].group.id == g;
    }
  }

  /** The loop that assigns each neighbor to its nodes, in whatever order the inner map yields them. */
  method SpreadGroups(nodes: seq<Account>, ghost rows: seq<AccountRow>, ghost joined: seq<JoinRow>,
                      neighbors: seq<GroupRow>, nids: map<int, set<Account>>)
    returns (err: Option<LoadError>)
    requires NodesOf(nodes, rows)
    requires forall i | 0 <= i < |nodes| :: nodes[i].groups == []
    requires Membership(nodes, rows, joined, nids) && neighbors == Map(GroupOf(), Distinct(GroupIdOf(), joined))
    modifies (set n | n in nodes)`groups
    ensures err.None?
    ensures forall i | 0 <= i < |nodes| :: nodes[i].groups == PickGroups(rows, i, joined, Distinct(GroupIdOf(), joined))
  {
    ghost var d := Distinct(GroupIdOf(), joined);
    err := None;
    var m := 0;
    while m < |neighbors| && err.None?
      invariant m <= |neighbors| && err.None?
      invariant forall i | 0 <= i < |nodes| :: nodes[i].groups == PickGroups(rows, i, joined, d[..m])
    {
      var n, id := neighbors[m], neighbors[m].id;
      MentionedAt(joined, m);
      if id !in nids {
        err := Some(UnexpectedNode(id));
      } else {
        AssignGroup(nodes, nids[id], n);
        forall i | 0 <= i < |nodes| ensures nodes[i].groups == PickGroups(rows, i, joined, d[..m + 1]) {
          PickGroupsSnoc(rows, i, joined, d, m);
        }
      }
      m := m + 1;
    }
    assert d[..|d|] == d;
  }

  lemma {:induction false} MentionedAt(joined: seq<JoinRow>, m: nat)
    requires m < |Distinct(GroupIdOf(), joined)|
    ensures Mentions(joined, Distinct(GroupIdOf(), joined)[m].group.id)
  {
    DistinctMentions(joined, Distinct(GroupIdOf(), joined)[m].group.id);
  }

  lemma PickGroupsSnoc(rows: seq<AccountRow>, i: nat, joined: seq<JoinRow>, d: seq<JoinRow>, m: nat)
    requires i < |rows| && m < |d|
    ensures PickGroups(rows, i, joined, d[..m + 1])
         == PickGroups(rows, i, joined, d[..m])
            + if IsLast(rows, i) && Joined(joined, rows[i].id, d[m].group.id) then [d[m].group] else []
  {
    var p := JoinsGroup(joined, rows[i].id);
    assert d[..m + 1] == d[..m] + [d[m]];
    FilterSnoc(p, d[..m], d[m]);
    MapSnoc(GroupOf(), Filter(p, d[..m]), d[m]);
    assert p(d[m]) <==> Joined(joined, rows[i].id, d[m].group.id);
  }

  method AssignGroup(nodes: seq<Account>, kns: set<Account>, n: GroupRow)
    requires kns <= set a | a in nodes
    modifies (set a | a in nodes)`groups
    ensures forall i | 0 <= i < |nodes| ::
      nodes[i].groups == if nodes[i] in kns then old(nodes[i].groups) + [n] else old(nodes[i].groups)
  {
    var pending := kns;
    while pending != {}
      invariant pending <= kns
      invariant forall i | 0 <= i < |nodes| ::
        nodes[i].groups == if nodes[i] in kns - pending then old(nodes[i].groups) + [n] else old(nodes[i].groups)
      decreases pending
    {
      var kn :| kn in pending;
      kn.groups := kn.groups + [n];
      pending := pending - {kn};
    }
  }

  /** nids holds, under each group of the join, the nodes that end up with it. */
  ghost predicate Membership(nodes: seq<Account>, rows: seq<AccountRow>, joined: seq<JoinRow>,
                             nids: map<int, set<Account>>)
    requires |nodes| == |rows|
  {
    && (forall g :: g in nids <==> Mentions(joined, g))
    && (forall g | g in nids :: nids[g] <= set a | a in nodes)
    && (forall g, i | g in nids && 0 <= i < |nodes| ::
          nodes[i] in nids[g] <==> IsLast(rows, i) && Joined(joined, rows[i].id, g))
  }

  lemma GroupMembership(nodes: seq<Account>, rows: seq<AccountRow>, byId: map<int, Account>, joined: seq<JoinRow>,
                        nids: map<int, set<Account>>)
    requires |nodes| == |rows| && ById(nodes, rows, byId)
    requires forall j, k | 0 <= j < k < |nodes| :: nodes[j] != nodes[k]
    requires (forall j | j in joined :: j.accountId in byId) && ByGroup(joined, byId, nids)
    ensures Membership(nodes, rows, joined, nids)
  {
    forall g | g in nids ensures nids[g] <= set a | a in nodes {
      forall a | a in nids[g] ensures a in nodes {
        var k :| 0 <= k < |joined| && joined[k].group.id == g && byId[joined[k].accountId] == a;
        assert joined[k] in joined;
      }
    }
    forall g, i | g in nids && 0 <= i < |nodes|
      ensures nodes[i] in nids[g] <==> IsLast(rows, i) && Joined(joined, rows[i].id, g)
    {
      InGroup(nodes, rows, byId, joined, nids, g, i);
    }
  }

  lemma InGroup(nodes: seq<Account>, rows: seq<AccountRow>, byId: map<int, Account>, joined: seq<JoinRow>,
                nids: map<int, set<Account>>, g: int, i: nat)
    requires |nodes| == |rows| && i < |nodes| && ById(nodes, rows, byId)
    requires forall j, k | 0 <= j < k < |nodes| :: nodes[j] != nodes[k]
    requires forall j | j in joined :: j.accountId in byId
    requires ByGroup(joined, byId, nids) && g in nids
    ensures nodes[i] in nids[g] <==> IsLast(rows, i) && Joined(joined, rows[i].id, g)
  {
    ByIdLast(nodes, rows, byId, i);
    forall k | 0 <= k < |joined| ensures joined[k].accountId in byId { assert joined[k] in joined; }
    if nodes[i] in nids[g] {
      var k :| 0 <= k < |joined| && joined[k].group.id == g && byId[joined[k].accountId] == nodes[i];
    }
    if IsLast(rows, i) && Joined(joined, rows[i].id, g) {
      var k :| 0 <= k < |joined| && joined[k].accountId == rows[i].id && joined[k].group.id == g;
      assert byId[joined[k].accountId] == nodes[i];
    }
  }

  // ----- the whole result -----

  /** The contents of the nodes of a result. */
  datatype Contents = Contents(
    rows: seq<AccountRow>, loaded: Loaded,
    groups: seq<seq<GroupRow>>, proxies: seq<Option<ProxyRow>>, parents: seq<Account?>,
    children: seq<seq<Account>>, usageLogs: seq<seq<UsageRow>>)

  /** Distinct node objects with contents c. */
  ghost predicate Hold(nodes: seq<Account>, c: Contents)
    reads nodes
  {
    |nodes| == |c.rows| && forall k {:trigger Open(Contained, k)} :: Open(Contained, k) ==> Carry(nodes, c)
  }

  ghost predicate Carry(nodes: seq<Account>, c: Contents)
    reads nodes
  {
    && NodesOf(nodes, c.rows)
    && |c.groups| == |c.proxies| == |c.parents| == |c.children| == |c.usageLogs| == |nodes|
    && forall i | 0 <= i < |nodes| ::
         && nodes[i].loaded == c.loaded && nodes[i].groups == c.groups[i] && nodes[i].proxy == c.proxies[i]
         && nodes[i].parent == c.parents[i] && nodes[i].children == c.children[i] && nodes[i].usageLogs == c.usageLogs[i]
  }

  ghost function Blank(rows: seq<AccountRow>, loaded: Loaded): Contents {
    var n := |rows|;
    Contents(rows, loaded, seq(n, _ => []), seq(n, _ => None), seq(n, _ => null), seq(n, _ => []), seq(n, _ => []))
  }

  method NewNodes(rows: seq<AccountRow>, loaded: Loaded) returns (nodes: seq<Account>)
    ensures Hold(nodes, Blank(rows, loaded)) && fresh(nodes)
  {
    nodes := [];
    for i := 0 to |rows|
      invariant Carry(nodes, Blank(rows[..i], loaded)) && fresh(nodes)
    {
      var node := new Account(rows[i], loaded);
      nodes := nodes + [node];
    }
    assert rows[..|rows|] == rows;
  }

  // What each load of a result with the given rows answers, and what it leaves of the sub-query.

  ghost predicate GroupsRun(db: Database, before: Option<GroupsQuery>, ids: seq<int>, js: seq<JoinRow>,
                            after: Option<GroupsQuery>) {
    forall k {:trigger Open(Runs, k)} :: Open(Runs, k) ==>
      !GroupsPanic(db, before, ids) &&
      (if before.None? then js == [] && after.None?
      else after == Some(AddJoin(before.value, ids)) && js == JoinedRows(db.groupJoin, after.value))
  }

  ghost predicate GroupsFail(db: Database, before: Option<GroupsQuery>, ids: seq<int>) {
    forall k {:trigger Open(Runs, k)} :: Open(Runs, k) ==> GroupsPanic(db, before, ids)
  }

  ghost predicate ProxyRun(db: Database, before: Option<LeafQuery<ProxyRow>>, rows: seq<AccountRow>,
                           ps: seq<ProxyRow>, after: Option<LeafQuery<ProxyRow>>) {
    forall k {:trigger Open(Runs, k)} :: Open(Runs, k) ==>
      (if before.None? then ps == [] && after.None?
      else
        var asked := LeafWhere(before.value, ProxyIn(Keys(ProxyOf(), rows)));
        ps == LeafRows(db.proxies, asked) && after == Some(if Keys(ProxyOf(), rows) == [] then before.value else asked))
  }

  ghost predicate UsageRun(db: Database, before: Option<LeafQuery<UsageRow>>, ids: seq<int>, us: seq<UsageRow>,
                           after: Option<LeafQuery<UsageRow>>) {
    forall k {:trigger Open(Runs, k)} :: Open(Runs, k) ==>
      (if before.None? then us == [] && after.None?
      else after == Some(LeafWhere(before.value, UsageIn(ids))) && us == LeafRows(db.usageLogs, after.value))
  }

  ghost predicate ParentRun(db: Database, before: Option<Plan>, rows: seq<AccountRow>, ps: seq<Tree>,
                            after: Option<Plan>) {
    forall k {:trigger Open(Runs, k)} :: Open(Runs, k) ==>
      (if before.None? || Keys(ParentOf(), rows) == [] then ps == [] && after == before
      else after.Some? && Answer(db, Where(before.value, IdIn(Keys(ParentOf(), rows))), ps, after.value))
  }

  ghost predicate ChildrenRun(db: Database, before: Option<Plan>, ids: seq<int>, cs: seq<Tree>, after: Option<Plan>) {
    forall k {:trigger Open(Runs, k)} :: Open(Runs, k) ==>
      (if before.None? then cs == [] && after.None?
      else after.Some? && Answer(db, Where(KeepParentColumn(before.value), ParentIn(ids)), cs, after.value))
  }

  ghost predicate ParentFail(db: Database, before: Option<Plan>, rows: seq<AccountRow>) {
    forall k {:trigger Open(Runs, k)} :: Open(Runs, k) ==>
      before.Some? && Keys(ParentOf(), rows) != [] && Fails(db, Where(before.value, IdIn(Keys(ParentOf(), rows))))
  }

  ghost predicate ChildrenFail(db: Database, before: Option<Plan>, ids: seq<int>) {
    forall k {:trigger Open(Runs, k)} :: Open(Runs, k) ==>
      before.Some? && Fails(db, Where(KeepParentColumn(before.value), ParentIn(ids)))
  }

  /** Some load of a result with the given rows panics. */
  ghost predicate SomeFails(db: Database, q: Plan, rows: seq<AccountRow>) {
    || GroupsFail(db, q.withGroups, Map(IdOf(), rows))
    || ParentFail(db, q.withParent, rows)
    || ChildrenFail(db, q.withChildren, Map(IdOf(), rows))
  }

  lemma LoadFails(db: Database, q: Plan, rows: seq<AccountRow>)
    requires rows == RowsOf(db, q) && rows != [] && SomeFails(db, q, rows)
    ensures Fails(db, q)
  {
    assert Open(Runs, 0) && Open(Answers, 0);
  }

  lemma NoAnswer(db: Database, q: Plan)
    requires RowsOf(db, q) == []
    ensures Answer(db, q, [], q)
  {
  }

  ghost predicate AllRun(db: Database, q: Plan, q': Plan, rows: seq<AccountRow>, ns: Neighbors) {
    && q' == q.(withGroups := q'.withGroups, withProxy := q'.withProxy, withParent := q'.withParent,
                withChildren := q'.withChildren, withUsageLogs := q'.withUsageLogs)
    && GroupsRun(db, q.withGroups, Map(IdOf(), rows), ns.joined, q'.withGroups)
    && ProxyRun(db, q.withProxy, rows, ns.proxies, q'.withProxy)
    && ParentRun(db, q.withParent, rows, ns.parents, q'.withParent)
    && ChildrenRun(db, q.withChildren, Map(IdOf(), rows), ns.children, q'.withChildren)
    && UsageRun(db, q.withUsageLogs, Map(IdOf(), rows), ns.usageLogs, q'.withUsageLogs)
  }

  lemma {:induction false} RunsLeave(db: Database, q: Plan, q': Plan, rows: seq<AccountRow>, ns: Neighbors)
    requires rows == RowsOf(db, q) && rows != [] && AllRun(db, q, q', rows, ns)
    ensures q' == After(db, q)
  {
    assert Open(Runs, 0) && Open(Answers, 0);
  }

  lemma {:induction false} RunsReturn(db: Database, q: Plan, q': Plan, rows: seq<AccountRow>, ns: Neighbors)
    requires rows == RowsOf(db, q) && AllRun(db, q, q', rows, ns)
    ensures !Panics(db, q)
  {
    assert Open(Runs, 0) && Open(Answers, 0);
  }

  lemma {:induction false} RunsAnswer(db: Database, q: Plan, q': Plan, rows: seq<AccountRow>, ns: Neighbors)
    requires AllRun(db, q, q', rows, ns)
    ensures ns == Batch(db, q, rows).(parents := ns.parents)
    ensures Keys(ParentOf(), rows) != [] ==> ns.parents == Batch(db, q, rows).parents
  {
    assert Open(Runs, 0) && Open(Answers, 0);
  }

  lemma {:induction false} SpreadParentless(q: Plan, rows: seq<AccountRow>, a: Neighbors, b: Neighbors, i: nat)
    requires i < |rows| && a == b.(parents := a.parents)
    requires Keys(ParentOf(), rows) != [] ==> a.parents == b.parents
    ensures Spread(q, rows, a, i) == Spread(q, rows, b, i)
  {
    if Keys(ParentOf(), rows) == [] { NoKeys(ParentOf(), rows); }
  }

  /** The answers of the five loads make up the answer of the query. */
  lemma Assemble(db: Database, q: Plan, q': Plan, rows: seq<AccountRow>, ns: Neighbors) returns (ts: seq<Tree>)
    requires rows == RowsOf(db, q) && rows != [] && AllRun(db, q, q', rows, ns)
    ensures Answer(db, q, ts, q')
    ensures |ts| == |rows| && forall i | 0 <= i < |rows| :: ts[i] == Spread(q, rows, ns, i)
  {
    ts := Batched(db, q);
    RunsReturn(db, q, q', rows, ns);
    RunsLeave(db, q, q', rows, ns);
    RunsAnswer(db, q, q', rows, ns);
    forall i | 0 <= i < |rows| ensures ts[i] == Spread(q, rows, ns, i) {
      SpreadParentless(q, rows, ns, Batch(db, q, rows), i);
    }
  }

  /** A load of an edge that was not requested leaves the blank contents. */
  lemma NothingSpread(rows: seq<AccountRow>, loaded: Loaded)
    ensures GroupsSpread(rows, Blank(rows, loaded).groups, [])
    ensures ProxySpread(rows, Blank(rows, loaded).proxies, [])
    ensures UsageSpread(rows, Blank(rows, loaded).usageLogs, [])
    ensures ParentsSpread(rows, Blank(rows, loaded).parents, [], {})
    ensures ChildrenSpread(rows, Blank(rows, loaded).children, [], {})
  {
  }

  /** The five edges carry the answers ns, the account edges through objects in Rp and Rc. */
  ghost predicate Filled(c: Contents, ns: Neighbors, Rp: set<Account>, Rc: set<Account>)
    reads Rp, Rc
  {
    && GroupsSpread(c.rows, c.groups, ns.joined)
    && ProxySpread(c.rows, c.proxies, ns.proxies)
    && UsageSpread(c.rows, c.usageLogs, ns.usageLogs)
    && ParentsSpread(c.rows, c.parents, ns.parents, Rp)
    && ChildrenSpread(c.rows, c.children, ns.children, Rc)
  }

  /** The nodes with the given rows and flags hold c, which carries the answers ns. */
  ghost predicate EdgesFilled(nodes: seq<Account>, rows: seq<AccountRow>, loaded: Loaded, c: Contents, ns: Neighbors,
                              Rp: set<Account>, Rc: set<Account>)
    reads nodes, Rp, Rc
  {
    forall k {:trigger Open(Fillings, k)} :: Open(Fillings, k) ==>
      Hold(nodes, c) && c.rows == rows && c.loaded == loaded && Filled(c, ns, Rp, Rc)
  }

  lemma {:induction false} NodesShown(nodes: seq<Account>, q: Plan, rows: seq<AccountRow>, c: Contents, ns: Neighbors,
                                      Rp: set<Account>, Rc: set<Account>, ts: seq<Tree>) returns (R: set<Account>)
    requires EdgesFilled(nodes, rows, LoadedFlags(q), c, ns, Rp, Rc)
    requires |ts| == |rows| && forall i | 0 <= i < |rows| :: ts[i] == Spread(q, rows, ns, i)
    ensures R == (set n | n in nodes) + Rp + Rc
    ensures |nodes| == |ts| && forall i | 0 <= i < |nodes| :: Shows(nodes[i], ts[i], R)
  {
    R := (set n | n in nodes) + Rp + Rc;
    assert Open(Fillings, 0);
    assert Open(Contained, 0) && Open(Spreads, 0);
    forall i | 0 <= i < |nodes| ensures Shows(nodes[i], Spread(q, rows, ns, i), R) {
      assert nodes[i] in nodes;
      LeavesShown(nodes[i], q, rows, ns, i);
      NodeShown(nodes[i], q, rows, ns, i, Rp, Rc, R);
    }
  }

  lemma LeavesShown(n: Account, q: Plan, rows: seq<AccountRow>, ns: Neighbors, i: nat)
    requires i < |rows| && n.row == rows[i] && n.loaded == LoadedFlags(q)
    requires n.groups == if IsLast(rows, i) then GroupsOf(ns.joined, rows[i].id) else []
    requires n.proxy == PickProxy(rows[i], ns.proxies) && n.usageLogs == PickUsage(rows, i, ns.usageLogs)
    ensures SameLeaves(n, Spread(q, rows, ns, i))
  {
  }

  /** n and t agree on everything but the account edges. */
  ghost predicate SameLeaves(n: Account, t: Tree)
    reads n
  {
    n.row == t.row && n.loaded == t.loaded && n.groups == t.groups && n.proxy == t.proxy && n.usageLogs == t.usageLogs
  }

  lemma {:induction false} NodeShown(n: Account, q: Plan, rows: seq<AccountRow>, ns: Neighbors, i: nat, Rp: set<Account>,
                  Rc: set<Account>, R: set<Account>)
    requires i < |rows| && n in R && SameLeaves(n, Spread(q, rows, ns, i))
    requires ShowsParent(n.parent, rows[i], ns.parents, Rp) && ShowsChildren(n.children, rows, i, ns.children, Rc)
    requires Rp <= R && Rc <= R
    ensures Shows(n, Spread(q, rows, ns, i), R)
  {
    var t := Spread(q, rows, ns, i);
    if n.parent != null { ShowsMore(n.parent, t.parent.value, Rp, R); }
    forall k | 0 <= k < |t.children| ensures Shows(n.children[k], t.children[k], R) {
      ShowsMore(n.children[k], t.children[k], Rc, R);
    }
  }
}
