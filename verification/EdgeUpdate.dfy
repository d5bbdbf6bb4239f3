/** Changing the edges of an account: the sets a mutation collects, the edge specs an update emits from them, and
    what the specs do to the links that are stored. */
module EdgeUpdate {
  import opened Relational
  import opened AccountFields
  import opened EntityCodec

  // ----- what a mutation collects -----

  /** The changes to an edge with many neighbours. */
  datatype EdgeChange = EdgeChange(added: set<int>, removed: set<int>, cleared: bool)

  /** The changes to an edge with one neighbour; the foreign key's own flag counts as cleared as well. */
  datatype UniqueChange = UniqueChange(value: Option<int>, clearedEdge: bool, clearedField: bool) {
    predicate Cleared() { clearedField || clearedEdge }
  }

  const NoChange := EdgeChange({}, {}, false)

  datatype EdgeOp = AddIds(ids: seq<int>) | RemoveIds(ids: seq<int>) | ClearAll | Reset

  datatype UniqueOp = SetId(id: int) | ClearField | ClearEdge | ResetField | ResetEdge

  predicate Many(e: Edge) { e == Groups || e == Children || e == UsageLogs }

  class AccountMutation {
    var many: map<Edge, EdgeChange>
    var unique: map<Edge, UniqueChange>

    ghost predicate Valid()
      reads this
    {
      forall e :: (Many(e) ==> e in many) && (!Many(e) ==> e in unique)
    }

    constructor ()
      ensures Valid()
      ensures forall e | Many(e) :: many[e] == NoChange
      ensures forall e | !Many(e) :: unique[e] == UniqueChange(None, false, false)
    {
      many := map[Groups := NoChange, Children := NoChange, UsageLogs := NoChange];
      unique := map[Proxy := UniqueChange(None, false, false), Parent := UniqueChange(None, false, false)];
    }

    method AddEdgeIds(e: Edge, ids: seq<int>)
      requires Valid() && Many(e)
      modifies this`many
      ensures Valid() && many == old(many)[e := Change(old(many[e]), AddIds(ids))]
    {
      var c := many[e];
      var added := c.added;
      for i := 0 to |ids|
        invariant added == c.added + Elements(ids[..i]) && many == old(many)
      {
        ElementsSnoc(ids, i);
        added := added + {ids[i]};
      }
      assert ids[..|ids|] == ids;
      many := many[e := c.(added := added)];
    }

    method RemoveEdgeIds(e: Edge, ids: seq<int>)
      requires Valid() && Many(e)
      modifies this`many
      ensures Valid() && many == old(many)[e := Change(old(many[e]), RemoveIds(ids))]
    {
      var c := many[e];
      var added, removed := c.added, c.removed;
      for i := 0 to |ids|
        invariant added == c.added - Elements(ids[..i])
        invariant removed == c.removed + Elements(ids[..i]) && many == old(many)
      {
        ElementsSnoc(ids, i);
        added := added - {ids[i]};
        removed := removed + {ids[i]};
      }
      assert ids[..|ids|] == ids;
      many := many[e := c.(added := added, removed := removed)];
    }

    method ClearEdgeIds(e: Edge)
      requires Valid() && Many(e)
      modifies this`many
      ensures Valid() && many == old(many)[e := Change(old(many[e]), ClearAll)]
    {
      many := many[e := many[e].(cleared := true)];
    }

    method ResetEdgeIds(e: Edge)
      requires Valid() && Many(e)
      modifies this`many
      ensures Valid() && many == old(many)[e := Change(old(many[e]), Reset)]
    {
      many := many[e := NoChange];
    }

    method ChangeUnique(e: Edge, op: UniqueOp)
      requires Valid() && !Many(e)
      modifies this`unique
      ensures Valid() && unique == old(unique)[e := ChangeOne(old(unique[e]), op)]
    {
      var c := unique[e];
      match op {
        case SetId(id) => c := c.(value := Some(id));
        case ClearField => c := c.(value := None, clearedField := true);
        case ClearEdge => c := c.(clearedEdge := true, clearedField := true);
        case ResetField => c := c.(value := None, clearedField := false);
        case ResetEdge => c := c.(value := None, clearedEdge := false);
      }
      unique := unique[e := c];
    }
  }

  function Elements(ids: seq<int>): set<int> { set k | k in ids }

  lemma ElementsSnoc(ids: seq<int>, i: nat)
    requires i < |ids|
    ensures Elements(ids[..i + 1]) == Elements(ids[..i]) + {ids[i]}
  {
    assert ids[..i + 1] == ids[..i] + [ids[i]];
  }

  /** Removing an id takes back its addition; clearing takes back none. */
  function Change(c: EdgeChange, op: EdgeOp): EdgeChange {
    match op
    case AddIds(ids) => c.(added := c.added + Elements(ids))
    case RemoveIds(ids) => c.(added := c.added - Elements(ids), removed := c.removed + Elements(ids))
    case ClearAll => c.(cleared := true)
    case Reset => NoChange
  }

  function ChangeOne(c: UniqueChange, op: UniqueOp): UniqueChange {
    match op
    case SetId(id) => UniqueChange(Some(id), c.clearedEdge, c.clearedField)
    case ClearField => UniqueChange(None, c.clearedEdge, true)
    case ClearEdge => UniqueChange(c.value, true, true)
    case ResetField => UniqueChange(None, c.clearedEdge, false)
    case ResetEdge => UniqueChange(None, false, c.clearedField)
  }

  // ----- what an update emits -----

  datatype UpdateEdges = UpdateEdges(clear: seq<EdgeSpec>, add: seq<EdgeSpec>)

  lemma NonEmpty(s: set<int>)
    requires s != {}
    ensures exists k :: k in s
  {
    if forall k :: k !in s {
      EmptyWithout(s);
    }
  }

  lemma EmptyWithout(s: set<int>)
    requires forall k :: k !in s
    ensures s == {}
  {
    var e: set<int> := {};
    assert forall k :: k in s <==> k in e;
    assert s == e;
  }

  /** Ranging over a map: its keys once each, in an order of its own. */
  method Keys(s: set<int>) returns (ids: seq<int>)
    ensures Elements(ids) == s && |ids| == |s|
  {
    ids := [];
    var rest := s;
    while rest != {}
      invariant rest <= s && Elements(ids) == s - rest && |ids| == |s| - |rest|
      decreases |rest|
    {
      NonEmpty(rest);
      var k :| k in rest;
      assert Elements(ids + [k]) == Elements(ids) + {k};
      ids, rest := ids + [k], rest - {k};
    }
  }

  /** The specs of one edge with many neighbours: to clear, one without targets if the edge is cleared, else one
      with the removed ids if there are any; to add, one with the added ids if there are any. */
  ghost predicate SpecsMany(e: Edge, c: EdgeChange, fields: seq<JoinField>, own: UpdateEdges) {
    && (if c.cleared then own.clear == [EdgeSpec(e, [], fields)]
        else if c.removed == {} then own.clear == []
        else |own.clear| == 1 && own.clear[0] == EdgeSpec(e, own.clear[0].nodes, fields) && Elements(own.clear[0].nodes) == c.removed)
    && (if c.added == {} then own.add == []
        else |own.add| == 1 && own.add[0] == EdgeSpec(e, own.add[0].nodes, fields) && Elements(own.add[0].nodes) == c.added)
  }

  ghost predicate SpecsUnique(e: Edge, c: UniqueChange, own: UpdateEdges) {
    && own.clear == (if c.Cleared() then [EdgeSpec(e, [], [])] else [])
    && own.add == (if c.value.Some? then [EdgeSpec(e, [c.value.value], [])] else [])
  }

  ghost predicate Specs(e: Edge, many: map<Edge, EdgeChange>, unique: map<Edge, UniqueChange>, d: JoinDefaults,
                        own: UpdateEdges)
    requires Many(e) ==> e in many
    requires !Many(e) ==> e in unique
  {
    if Many(e) then SpecsMany(e, many[e], if e == Groups then TemplateOf(d) else [], own)
    else SpecsUnique(e, unique[e], own)
  }

  function Joined(a: UpdateEdges, b: UpdateEdges): UpdateEdges { UpdateEdges(a.clear + b.clear, a.add + b.add) }

  ghost predicate EmitsMany(e: Edge, c: EdgeChange, fields: seq<JoinField>, edges: UpdateEdges, out: UpdateEdges) {
    exists own :: out == Joined(edges, own) && SpecsMany(e, c, fields, own)
  }

  ghost predicate EmitsUnique(e: Edge, c: UniqueChange, edges: UpdateEdges, out: UpdateEdges) {
    exists own :: out == Joined(edges, own) && SpecsUnique(e, c, own)
  }

  method EmitMany(e: Edge, c: EdgeChange, fields: seq<JoinField>, edges: UpdateEdges) returns (out: UpdateEdges)
    ensures EmitsMany(e, c, fields, edges, out)
  {
    out := edges;
    ghost var own := UpdateEdges([], []);
    if c.cleared {
      out := out.(clear := out.clear + [EdgeSpec(e, [], fields)]);
      own := own.(clear := [EdgeSpec(e, [], fields)]);
    }
    var removed := Keys(c.removed);
    if |removed| > 0 && !c.cleared {
      var nodes: seq<int> := [];
      for i := 0 to |removed|
        invariant nodes == removed[..i]
      {
        nodes := nodes + [removed[i]];
      }
      out := out.(clear := out.clear + [EdgeSpec(e, nodes, fields)]);
      own := own.(clear := [EdgeSpec(e, nodes, fields)]);
    }
    var added := Keys(c.added);
    if |added| > 0 {
      var nodes: seq<int> := [];
      for i := 0 to |added|
        invariant nodes == added[..i]
      {
        nodes := nodes + [added[i]];
      }
      out := out.(add := out.add + [EdgeSpec(e, nodes, fields)]);
      own := own.(add := [EdgeSpec(e, nodes, fields)]);
    }
    assert out == Joined(edges, own) && SpecsMany(e, c, fields, own);
  }

  method EmitUnique(e: Edge, c: UniqueChange, edges: UpdateEdges) returns (out: UpdateEdges)
    ensures EmitsUnique(e, c, edges, out)
  {
    out := edges;
    ghost var own := UpdateEdges([], []);
    if c.Cleared() {
      out := out.(clear := out.clear + [EdgeSpec(e, [], [])]);
      own := own.(clear := [EdgeSpec(e, [], [])]);
    }
    if c.value.Some? {
      out := out.(add := out.add + [EdgeSpec(e, [c.value.value], [])]);
      own := own.(add := [EdgeSpec(e, [c.value.value], [])]);
    }
    assert out == Joined(edges, own) && SpecsUnique(e, c, own);
  }

  /** The emitted specs, and for each edge the part that is its own. */
  ghost predicate Emitted(m: map<Edge, EdgeChange>, u: map<Edge, UniqueChange>, d: JoinDefaults, edges: UpdateEdges,
                          own: map<Edge, UpdateEdges>)
    requires forall e :: (Many(e) ==> e in m) && (!Many(e) ==> e in u)
  {
    && (forall e :: e in own && Specs(e, m, u, d, own[e]))
    && edges == Joined(Joined(Joined(Joined(own[Groups], own[Proxy]), own[Parent]), own[Children]), own[UsageLogs])
  }

  /** The specs an update emits for the changes of a mutation. */
  ghost predicate Emits(m: map<Edge, EdgeChange>, u: map<Edge, UniqueChange>, d: JoinDefaults, edges: UpdateEdges)
    requires forall e :: (Many(e) ==> e in m) && (!Many(e) ==> e in u)
  {
    exists own :: Emitted(m, u, d, edges, own)
  }

  method EmitEdges(m: AccountMutation, d: JoinDefaults) returns (edges: UpdateEdges)
    requires m.Valid()
    ensures Emits(m.many, m.unique, d, edges)
  {
    var template := JoinTemplate(d);
    edges := UpdateEdges([], []);
    edges := EmitMany(Groups, m.many[Groups], template, edges);
    ghost var e1 := edges;
    edges := EmitUnique(Proxy, m.unique[Proxy], edges);
    ghost var e2 := edges;
    edges := EmitUnique(Parent, m.unique[Parent], edges);
    ghost var e3 := edges;
    edges := EmitMany(Children, m.many[Children], [], edges);
    ghost var e4 := edges;
    edges := EmitMany(UsageLogs, m.many[UsageLogs], [], edges);
    EmittedTogether(m.many, m.unique, d, e1, e2, e3, e4, edges);
  }

  lemma EmittedTogether(m: map<Edge, EdgeChange>, u: map<Edge, UniqueChange>, d: JoinDefaults,
                        e1: UpdateEdges, e2: UpdateEdges, e3: UpdateEdges, e4: UpdateEdges, e5: UpdateEdges)
    requires forall e :: (Many(e) ==> e in m) && (!Many(e) ==> e in u)
    requires Groups in m && Children in m && UsageLogs in m && Proxy in u && Parent in u
    requires EmitsMany(Groups, m[Groups], TemplateOf(d), UpdateEdges([], []), e1)
    requires EmitsUnique(Proxy, u[Proxy], e1, e2) && EmitsUnique(Parent, u[Parent], e2, e3)
    requires EmitsMany(Children, m[Children], [], e3, e4) && EmitsMany(UsageLogs, m[UsageLogs], [], e4, e5)
    ensures Emits(m, u, d, e5)
  {
    var g := OwnMany(Groups, m[Groups], TemplateOf(d), UpdateEdges([], []), e1);
    var p := OwnUnique(Proxy, u[Proxy], e1, e2);
    var a := OwnUnique(Parent, u[Parent], e2, e3);
    var c := OwnMany(Children, m[Children], [], e3, e4);
    var l := OwnMany(UsageLogs, m[UsageLogs], [], e4, e5);
    JoinedNone(g);
    OwnTogether(m, u, d, e2, e3, e4, e5, g, p, a, c, l);
  }

  lemma JoinedNone(own: UpdateEdges)
    ensures Joined(UpdateEdges([], []), own) == own
  {
    assert [] + own.clear == own.clear && [] + own.add == own.add;
  }

  lemma OwnMany(e: Edge, c: EdgeChange, fields: seq<JoinField>, edges: UpdateEdges,
                out: UpdateEdges) returns (own: UpdateEdges)
    requires EmitsMany(e, c, fields, edges, out)
    ensures out == Joined(edges, own) && SpecsMany(e, c, fields, own)
  {
    own :| out == Joined(edges, own) && SpecsMany(e, c, fields, own);
  }

  lemma OwnUnique(e: Edge, c: UniqueChange, edges: UpdateEdges, out: UpdateEdges) returns (own: UpdateEdges)
    requires EmitsUnique(e, c, edges, out)
    ensures out == Joined(edges, own) && SpecsUnique(e, c, own)
  {
    own :| out == Joined(edges, own) && SpecsUnique(e, c, own);
  }

  lemma OwnTogether(m: map<Edge, EdgeChange>, u: map<Edge, UniqueChange>, d: JoinDefaults,
                    e2: UpdateEdges, e3: UpdateEdges, e4: UpdateEdges, e5: UpdateEdges,
                    g: UpdateEdges, p: UpdateEdges, a: UpdateEdges, c: UpdateEdges, l: UpdateEdges)
    requires forall e :: (Many(e) ==> e in m) && (!Many(e) ==> e in u)
    requires Specs(Groups, m, u, d, g) && Specs(Proxy, m, u, d, p) && Specs(Parent, m, u, d, a)
    requires Specs(Children, m, u, d, c) && Specs(UsageLogs, m, u, d, l)
    requires e2 == Joined(g, p) && e3 == Joined(e2, a) && e4 == Joined(e3, c) && e5 == Joined(e4, l)
    ensures Emits(m, u, d, e5)
  {
    var own := map[Groups := g, Proxy := p, Parent := a, Children := c, UsageLogs := l];
    forall e ensures e in own && Specs(e, m, u, d, own[e]) {
      match e case Groups => case Proxy => case Parent => case Children => case UsageLogs =>
    }
    assert Emitted(m, u, d, e5, own);
  }

  // ----- what the specs do -----

  /** The stored links of each edge, as pairs of an account and a neighbour. */
  type Links = map<Edge, set<(int, int)>>

  ghost predicate Total(links: Links) { forall e :: e in links }

  /** A clear spec without targets clears every link of the account. */
  predicate Cuts(id: int, s: EdgeSpec, p: (int, int)) { p.0 == id && (s.nodes == [] || p.1 in s.nodes) }

  function Clear(id: int, s: EdgeSpec, links: Links): Links
    requires s.edge in links
  {
    links[s.edge := set p | p in links[s.edge] && !Cuts(id, s, p)]
  }

  function NewLinks(id: int, s: EdgeSpec): set<(int, int)> { set k | k in s.nodes :: (id, k) }

  /** An edge with one neighbour is overwritten. */
  function Add(id: int, s: EdgeSpec, links: Links): Links
    requires s.edge in links
  {
    links[s.edge := (if Many(s.edge) then links[s.edge] else set p | p in links[s.edge] && p.0 != id) + NewLinks(id, s)]
  }

  function ClearEach(id: int, ss: seq<EdgeSpec>, links: Links): (r: Links)
    requires Total(links)
    ensures Total(r)
  {
    if ss == [] then links else Clear(id, ss[|ss| - 1], ClearEach(id, ss[..|ss| - 1], links))
  }

  function AddEach(id: int, ss: seq<EdgeSpec>, links: Links): (r: Links)
    requires Total(links)
    ensures Total(r)
  {
    if ss == [] then links else Add(id, ss[|ss| - 1], AddEach(id, ss[..|ss| - 1], links))
  }

  /** All clear specs come before all add specs. */
  function Updated(id: int, edges: UpdateEdges, links: Links): (r: Links)
    requires Total(links)
    ensures Total(r)
  {
    AddEach(id, edges.add, ClearEach(id, edges.clear, links))
  }

  function Neighbors(links: Links, e: Edge, id: int): set<int>
    requires e in links
  {
    set p | p in links[e] && p.0 == id :: p.1
  }

  /** Only the specs of an edge touch its links. */
  lemma {:induction false} ClearEachOf(id: int, ss: seq<EdgeSpec>, links: Links, e: Edge, p: (int, int))
    requires Total(links)
    ensures p in ClearEach(id, ss, links)[e] <==> p in links[e] && forall s | s in ss && s.edge == e :: !Cuts(id, s, p)
  {
    if ss != [] {
      ClearEachOf(id, ss[..|ss| - 1], links, e, p);
      assert ss == ss[..|ss| - 1] + [ss[|ss| - 1]];
    }
  }

  lemma NewLinkIs(id: int, s: EdgeSpec, p: (int, int))
    ensures p in NewLinks(id, s) <==> p.0 == id && p.1 in s.nodes
  {
    if p.0 == id && p.1 in s.nodes {
      var k := p.1;
      assert k in s.nodes && (id, k) == p;
    }
  }

  lemma {:induction false} AddEachOf(id: int, ss: seq<EdgeSpec>, links: Links, e: Edge, p: (int, int))
    requires Total(links)
    ensures Many(e) ==>
      (p in AddEach(id, ss, links)[e] <==> p in links[e] || (p.0 == id && exists s :: s in ss && s.edge == e && p.1 in s.nodes))
    ensures (forall s | s in ss :: s.edge != e) ==> AddEach(id, ss, links)[e] == links[e]
    ensures p.0 != id ==> (p in AddEach(id, ss, links)[e] <==> p in links[e])
  {
    if ss != [] {
      var init, last := ss[..|ss| - 1], ss[|ss| - 1];
      AddEachOf(id, init, links, e, p);
      assert ss == init + [last];
      NewLinkIs(id, last, p);
    }
  }

  // ----- what an update means -----

  /** The neighbours intended: nothing old if cleared, else the old ones without the removed; and the added. */
  function Effect(c: EdgeChange, stored: set<int>): set<int> {
    (if c.cleared then {} else stored - c.removed) + c.added
  }

  function EffectOne(c: UniqueChange, stored: set<int>): set<int> {
    if c.value.Some? then {c.value.value} else if c.Cleared() then {} else stored
  }

  lemma OwnSpecs(m: map<Edge, EdgeChange>, u: map<Edge, UniqueChange>, d: JoinDefaults, edges: UpdateEdges,
                 own: map<Edge, UpdateEdges>, s: EdgeSpec)
    requires forall e :: (Many(e) ==> e in m) && (!Many(e) ==> e in u)
    requires Emitted(m, u, d, edges, own)
    ensures s in edges.clear <==> s in own[s.edge].clear
    ensures s in edges.add <==> s in own[s.edge].add
  {
    forall e ensures Specs(e, m, u, d, own[e]) { }
    forall e | s in own[e].clear || s in own[e].add ensures e == s.edge { OwnEdge(e, m, u, d, own[e], s); }
  }

  lemma OwnEdge(e: Edge, m: map<Edge, EdgeChange>, u: map<Edge, UniqueChange>, d: JoinDefaults, own: UpdateEdges,
                s: EdgeSpec)
    requires Many(e) ==> e in m
    requires !Many(e) ==> e in u
    requires Specs(e, m, u, d, own) && (s in own.clear || s in own.add)
    ensures s.edge == e
  {
  }

  lemma NeighborIs(links: Links, e: Edge, id: int, x: int)
    requires e in links
    ensures x in Neighbors(links, e, id) <==> (id, x) in links[e]
  {
    if (id, x) in links[e] {
      var p := (id, x);
      assert p in links[e] && p.0 == id && p.1 == x;
    }
  }

  /** Clearing, with the specs of this edge alone. */
  lemma {:induction false} ClearsOwn(id: int, all: seq<EdgeSpec>, own: seq<EdgeSpec>, links: Links, e: Edge, x: int)
    requires Total(links) && forall s: EdgeSpec | s.edge == e :: s in all <==> s in own
    requires forall s | s in own :: s.edge == e
    ensures (id, x) in ClearEach(id, all, links)[e] <==> (id, x) in links[e] && forall s | s in own :: !Cuts(id, s, (id, x))
  {
    ClearEachOf(id, all, links, e, (id, x));
  }

  lemma ManyClears(id: int, c: EdgeChange, fields: seq<JoinField>, own: UpdateEdges, e: Edge, x: int)
    requires SpecsMany(e, c, fields, own)
    ensures (forall s | s in own.clear :: !Cuts(id, s, (id, x))) <==> !c.cleared && x !in c.removed
    ensures (exists s :: s in own.add && x in s.nodes) <==> x in c.added
  {
    if own.clear != [] { assert own.clear[0] in own.clear; }
    if own.add != [] { assert own.add[0] in own.add; }
  }

  lemma ManyMeans(id: int, c: EdgeChange, fields: seq<JoinField>, edges: UpdateEdges, own: UpdateEdges, links: Links,
                  e: Edge, x: int)
    requires Total(links) && Many(e) && SpecsMany(e, c, fields, own)
    requires forall s: EdgeSpec | s.edge == e :: (s in edges.clear <==> s in own.clear) && (s in edges.add <==> s in own.add)
    requires forall s | s in own.clear || s in own.add :: s.edge == e
    ensures (id, x) in Updated(id, edges, links)[e] <==> ((id, x) in links[e] && !c.cleared && x !in c.removed) || x in c.added
  {
    ClearsOwn(id, edges.clear, own.clear, links, e, x);
    ManyClears(id, c, fields, own, e, x);
    AddEachOf(id, edges.add, ClearEach(id, edges.clear, links), e, (id, x));
    assert (exists s :: s in edges.add && s.edge == e && x in s.nodes) <==> (exists s :: s in own.add && x in s.nodes);
  }

  /** The last spec that overwrites an edge with one neighbour decides. */
  lemma {:induction false} AddsOne(id: int, ss: seq<EdgeSpec>, s: EdgeSpec, links: Links, x: int)
    requires Total(links) && !Many(s.edge) && s in ss && forall t | t in ss && t.edge == s.edge :: t == s
    ensures (id, x) in AddEach(id, ss, links)[s.edge] <==> x in s.nodes
  {
    var init, last := ss[..|ss| - 1], ss[|ss| - 1];
    assert ss == init + [last];
    NewLinkIs(id, last, (id, x));
    if last.edge != s.edge { AddsOne(id, init, s, links, x); }
  }

  lemma UniqueMeans(id: int, c: UniqueChange, edges: UpdateEdges, own: UpdateEdges, links: Links, e: Edge, x: int)
    requires Total(links) && !Many(e) && SpecsUnique(e, c, own)
    requires forall s: EdgeSpec | s.edge == e :: (s in edges.clear <==> s in own.clear) && (s in edges.add <==> s in own.add)
    ensures (id, x) in Updated(id, edges, links)[e] <==>
      if c.value.Some? then x == c.value.value else (id, x) in links[e] && !c.Cleared()
  {
    var cleared := ClearEach(id, edges.clear, links);
    ClearsOwn(id, edges.clear, own.clear, links, e, x);
    if c.value.Some? {
      AddsOne(id, edges.add, EdgeSpec(e, [c.value.value], []), cleared, x);
    } else {
      AddEachOf(id, edges.add, cleared, e, (id, x));
      if c.Cleared() { assert Cuts(id, own.clear[0], (id, x)); }
    }
  }

  lemma OthersKept(id: int, edges: UpdateEdges, links: Links, e: Edge, p: (int, int))
    requires Total(links) && p.0 != id
    ensures p in Updated(id, edges, links)[e] <==> p in links[e]
  {
    ClearEachOf(id, edges.clear, links, e, p);
    AddEachOf(id, edges.add, ClearEach(id, edges.clear, links), e, p);
  }

  function Intended(m: map<Edge, EdgeChange>, u: map<Edge, UniqueChange>, e: Edge, before: set<int>): set<int>
    requires Many(e) ==> e in m
    requires !Many(e) ==> e in u
  {
    if Many(e) then Effect(m[e], before) else EffectOne(u[e], before)
  }

  lemma MeansFor(id: int, m: map<Edge, EdgeChange>, u: map<Edge, UniqueChange>, d: JoinDefaults, edges: UpdateEdges,
                 own: UpdateEdges, links: Links, e: Edge, x: int)
    requires Total(links) && (Many(e) ==> e in m) && (!Many(e) ==> e in u) && Specs(e, m, u, d, own)
    requires forall s: EdgeSpec | s.edge == e :: (s in edges.clear <==> s in own.clear) && (s in edges.add <==> s in own.add)
    ensures x in Neighbors(Updated(id, edges, links), e, id) <==> x in Intended(m, u, e, Neighbors(links, e, id))
  {
    NeighborIs(Updated(id, edges, links), e, id, x);
    NeighborIs(links, e, id, x);
    if Many(e) {
      ManyMeans(id, m[e], if e == Groups then TemplateOf(d) else [], edges, own, links, e, x);
    } else {
      UniqueMeans(id, u[e], edges, own, links, e, x);
    }
  }

  /** The emitted specs leave an edge with the neighbours intended, and the links of other accounts as they were. */
  lemma UpdateMeans(id: int, m: map<Edge, EdgeChange>, u: map<Edge, UniqueChange>, d: JoinDefaults, edges: UpdateEdges,
                    links: Links, e: Edge)
    requires Total(links) && forall e :: (Many(e) ==> e in m) && (!Many(e) ==> e in u)
    requires Emits(m, u, d, edges)
    ensures Neighbors(Updated(id, edges, links), e, id) == Intended(m, u, e, Neighbors(links, e, id))
    ensures forall p: (int, int) | p.0 != id :: p in Updated(id, edges, links)[e] <==> p in links[e]
  {
    var own: map<Edge, UpdateEdges> :| Emitted(m, u, d, edges, own);
    forall s: EdgeSpec | s.edge == e ensures (s in edges.clear <==> s in own[e].clear) && (s in edges.add <==> s in own[e].add) {
      OwnSpecs(m, u, d, edges, own, s);
    }
    forall x ensures x in Neighbors(Updated(id, edges, links), e, id) <==> x in Intended(m, u, e, Neighbors(links, e, id)) {
      MeansFor(id, m, u, d, edges, own[e], links, e, x);
    }
    forall p: (int, int) | p.0 != id ensures p in Updated(id, edges, links)[e] <==> p in links[e] { OthersKept(id, edges, links, e, p); }
  }

  /** A spec of the groups edge carries the priority and the creation time of a join row, the others carry nothing. */
  lemma EmittedFields(m: map<Edge, EdgeChange>, u: map<Edge, UniqueChange>, d: JoinDefaults, edges: UpdateEdges, s: EdgeSpec)
    requires forall e :: (Many(e) ==> e in m) && (!Many(e) ==> e in u)
    requires Emits(m, u, d, edges) && (s in edges.clear || s in edges.add)
    ensures s.fields == if s.edge == Groups then [JoinPriority(d.priority), JoinCreatedAt(d.createdAt)] else []
  {
    var own: map<Edge, UpdateEdges> :| Emitted(m, u, d, edges, own);
    OwnSpecs(m, u, d, edges, own, s);
    assert Specs(s.edge, m, u, d, own[s.edge]);
    OwnFields(s.edge, m, u, d, own[s.edge], s);
  }

  lemma OwnFields(e: Edge, m: map<Edge, EdgeChange>, u: map<Edge, UniqueChange>, d: JoinDefaults, own: UpdateEdges, s: EdgeSpec)
    requires (Many(e) ==> e in m) && (!Many(e) ==> e in u)
    requires Specs(e, m, u, d, own) && (s in own.clear || s in own.add)
    ensures s.fields == if e == Groups then [JoinPriority(d.priority), JoinCreatedAt(d.createdAt)] else []
  {
  }

  // ----- histories of calls -----

  function Changes(ops: seq<EdgeOp>): EdgeChange {
    if ops == [] then NoChange else Change(Changes(ops[..|ops| - 1]), ops[|ops| - 1])
  }

  /** The neighbours that a caller who reads the calls one after the other expects; a reset gives up the changes. */
  function Expected(ops: seq<EdgeOp>, stored: set<int>): set<int> {
    if ops == [] then stored
    else
      var before := Expected(ops[..|ops| - 1], stored);
      match ops[|ops| - 1]
      case AddIds(ids) => before + Elements(ids)
      case RemoveIds(ids) => before - Elements(ids)
      case ClearAll => {}
      case Reset => stored
  }

  predicate Mentions(op: EdgeOp, k: int) {
    match op
    case AddIds(ids) => k in ids
    case RemoveIds(ids) => k in ids
    case ClearAll => false
    case Reset => true
  }

  /** The ids added before a clear, and neither added nor removed nor reset after it. */
  function Stale(ops: seq<EdgeOp>): set<int> {
    if ops == [] then {}
    else
      var before := Stale(ops[..|ops| - 1]);
      match ops[|ops| - 1]
      case AddIds(ids) => before - Elements(ids)
      case RemoveIds(ids) => before - Elements(ids)
      case ClearAll => Changes(ops[..|ops| - 1]).added
      case Reset => {}
  }

  /** Call j clears the edge while k is to be added, and no later call mentions k. */
  predicate StaleFrom(ops: seq<EdgeOp>, j: nat, k: int)
    requires j < |ops|
  {
    ops[j] == ClearAll && k in Changes(ops[..j]).added && forall l | j < l < |ops| :: !Mentions(ops[l], k)
  }

  lemma {:induction false} StaleFromSnoc(init: seq<EdgeOp>, op: EdgeOp, j: nat, k: int)
    requires j <= |init|
    ensures StaleFrom(init + [op], j, k) <==>
      if j < |init| then StaleFrom(init, j, k) && !Mentions(op, k) else op == ClearAll && k in Changes(init).added
  {
    var ops := init + [op];
    if j < |init| {
      assert ops[..j] == init[..j];
      assert forall l | j < l < |init| :: ops[l] == init[l];
      assert ops[|init|] == op;
    } else {
      assert ops[..j] == init;
    }
  }

  lemma {:induction false} StaleMeans(ops: seq<EdgeOp>, k: int)
    ensures k in Stale(ops) <==> exists j | 0 <= j < |ops| :: StaleFrom(ops, j, k)
  {
    if ops != [] {
      var init, op := ops[..|ops| - 1], ops[|ops| - 1];
      assert ops == init + [op];
      StaleMeans(init, k);
      forall j: nat | j < |ops| ensures StaleFrom(ops, j, k) <==>
        if j < |init| then StaleFrom(init, j, k) && !Mentions(op, k) else op == ClearAll && k in Changes(init).added
      {
        StaleFromSnoc(init, op, j, k);
      }
      if k in Stale(ops) {
        if op == ClearAll {
          assert StaleFrom(ops, |init|, k);
        } else {
          var j :| 0 <= j < |init| && StaleFrom(init, j, k);
          assert StaleFrom(ops, j, k);
        }
      }
      if j :| 0 <= j < |ops| && StaleFrom(ops, j, k) {
        if j < |init| {
          assert StaleFrom(init, j, k);
          HistoryMeans(init, {});
        }
      }
    }
  }

  /** What an update does to an edge is what its calls say one after the other, and the stale additions besides: a
      clear does not undo them.  The two parts have nothing in common. */
  lemma {:induction false} HistoryMeans(ops: seq<EdgeOp>, stored: set<int>)
    ensures Effect(Changes(ops), stored) == Expected(ops, stored) + Stale(ops)
    ensures Expected(ops, stored) !! Stale(ops)
    ensures Stale(ops) <= Changes(ops).added
    ensures Stale(ops) != {} ==> Changes(ops).cleared
  {
    if ops != [] { HistoryMeans(ops[..|ops| - 1], stored); }
  }

  /** An update means what its calls say, whatever was stored, exactly when no addition is stale. */
  lemma {:induction false} HistoryExact(ops: seq<EdgeOp>)
    ensures (forall stored :: Effect(Changes(ops), stored) == Expected(ops, stored)) <==> Stale(ops) == {}
  {
    if Stale(ops) == {} {
      forall stored ensures Effect(Changes(ops), stored) == Expected(ops, stored) { HistoryMeans(ops, stored); }
    } else {
      HistoryMeans(ops, {});
      assert Effect(Changes(ops), {}) != Expected(ops, {});
    }
  }

  /** Adding a group and clearing the groups afterwards leaves the added group. */
  lemma {:induction false} ClearAfterAdd(k: int, stored: set<int>)
    ensures Effect(Changes([AddIds([k]), ClearAll]), stored) == {k} && Expected([AddIds([k]), ClearAll], stored) == {}
  {
    var ops := [AddIds([k]), ClearAll];
    assert ops[..1] == [AddIds([k])] && ops[..1][..0] == [];
    assert Changes(ops[..1]) == Change(NoChange, AddIds([k]));
    assert Elements([k]) == {k};
  }

  function ChangesOne(ops: seq<UniqueOp>): UniqueChange {
    if ops == [] then UniqueChange(None, false, false) else ChangeOne(ChangesOne(ops[..|ops| - 1]), ops[|ops| - 1])
  }

  /** For an edge with one neighbour the last call alone should decide. */
  function ExpectedOne(ops: seq<UniqueOp>, stored: set<int>): set<int> {
    if ops == [] then stored
    else match ops[|ops| - 1]
         case SetId(id) => {id}
         case ClearField | ClearEdge => {}
         case ResetField | ResetEdge => stored
  }

  /** It does, whatever was stored, exactly when clearing the edge does not follow a neighbour that is still set, and
      a reset does not leave the other of the two clear flags behind. */
  lemma {:induction false} UniqueHistoryExact(ops: seq<UniqueOp>)
    requires ops != []
    ensures var before := ChangesOne(ops[..|ops| - 1]);
      (forall stored :: EffectOne(ChangesOne(ops), stored) == ExpectedOne(ops, stored)) <==>
        match ops[|ops| - 1]
        case SetId(_) | ClearField => true
        case ClearEdge => before.value.None?
        case ResetField => !before.clearedEdge
        case ResetEdge => !before.clearedField
  {
    assert EffectOne(ChangesOne(ops), {0}) == ExpectedOne(ops, {0}) <==>
      match ops[|ops| - 1]
      case SetId(_) | ClearField => true
      case ClearEdge => ChangesOne(ops[..|ops| - 1]).value.None?
      case ResetField => !ChangesOne(ops[..|ops| - 1]).clearedEdge
      case ResetEdge => !ChangesOne(ops[..|ops| - 1]).clearedField;
  }

  /** Setting a neighbour and clearing the edge afterwards leaves the neighbour. */
  lemma {:induction false} ClearEdgeAfterSet(k: int, stored: set<int>)
    ensures EffectOne(ChangesOne([SetId(k), ClearEdge]), stored) == {k} && ExpectedOne([SetId(k), ClearEdge], stored) == {}
  {
    var ops := [SetId(k), ClearEdge];
    assert ops[..1] == [SetId(k)] && ops[..1][..0] == [];
    assert ChangesOne(ops[..1]).value == Some(k);
  }

  /** Call j is the last of its kind. */
  ghost predicate LastOf(ops: seq<UniqueOp>, kind: UniqueOp -> bool, j: int) {
    0 <= j < |ops| && kind(ops[j]) && forall k | j < k < |ops| :: !kind(ops[k])
  }

  lemma {:induction false} LastSnoc(ops: seq<UniqueOp>, kind: UniqueOp -> bool, j: int)
    requires ops != []
    ensures var n := |ops| - 1; LastOf(ops, kind, j) <==> if kind(ops[n]) then j == n else LastOf(ops[..n], kind, j)
  {
    var n := |ops| - 1;
    assert forall k | 0 <= k < n :: ops[..n][k] == ops[k];
    if LastOf(ops[..n], kind, j) && !kind(ops[n]) {
      forall k | j < k < |ops| ensures !kind(ops[k]) { if k < n { assert ops[..n][k] == ops[k]; } }
    }
  }

  function SettlesField(): UniqueOp -> bool { (op: UniqueOp) => op == ClearField || op == ClearEdge || op == ResetField }
  function SettlesEdge(): UniqueOp -> bool { (op: UniqueOp) => op == ClearEdge || op == ResetEdge }
  function SettlesValue(): UniqueOp -> bool { (op: UniqueOp) => op != ClearEdge }

  /** What the mutation holds of an edge with one neighbour, by the last calls that settle it: an edge clear sets the flag
      of the foreign key as well, and leaves the neighbour. */
  lemma {:induction false} ChangesOneMean(ops: seq<UniqueOp>)
    ensures var c := ChangesOne(ops);
      && (c.clearedField <==> exists j :: LastOf(ops, SettlesField(), j) && ops[j] != ResetField)
      && (c.clearedEdge <==> exists j :: LastOf(ops, SettlesEdge(), j) && ops[j] == ClearEdge)
      && (c.value.Some? <==> exists j :: LastOf(ops, SettlesValue(), j) && ops[j].SetId?)
      && (forall j | LastOf(ops, SettlesValue(), j) && ops[j].SetId? :: c.value == Some(ops[j].id))
  {
    FieldFlagMeans(ops);
    EdgeFlagMeans(ops);
    ValueMeans(ops);
  }

  lemma {:induction false} FieldFlagMeans(ops: seq<UniqueOp>)
    ensures ChangesOne(ops).clearedField <==> exists j :: LastOf(ops, SettlesField(), j) && ops[j] != ResetField
  {
    if ops != [] {
      FieldFlagMeans(ops[..|ops| - 1]);
      forall j { LastSnoc(ops, SettlesField(), j); }
    }
  }

  lemma {:induction false} EdgeFlagMeans(ops: seq<UniqueOp>)
    ensures ChangesOne(ops).clearedEdge <==> exists j :: LastOf(ops, SettlesEdge(), j) && ops[j] == ClearEdge
  {
    if ops != [] {
      EdgeFlagMeans(ops[..|ops| - 1]);
      forall j { LastSnoc(ops, SettlesEdge(), j); }
    }
  }

  lemma {:induction false} ValueMeans(ops: seq<UniqueOp>)
    ensures ChangesOne(ops).value.Some? <==> exists j :: LastOf(ops, SettlesValue(), j) && ops[j].SetId?
    ensures forall j | LastOf(ops, SettlesValue(), j) && ops[j].SetId? :: ChangesOne(ops).value == Some(ops[j].id)
  {
    if ops != [] {
      ValueMeans(ops[..|ops| - 1]);
      forall j { LastSnoc(ops, SettlesValue(), j); }
    }
  }

  /** Resetting the edge after clearing it leaves the foreign key's flag, and clears the edge. */
  lemma {:induction false} ResetEdgeAfterClear(stored: set<int>)
    ensures EffectOne(ChangesOne([ClearEdge, ResetEdge]), stored) == {} && ExpectedOne([ClearEdge, ResetEdge], stored) == stored
  {
    var ops := [ClearEdge, ResetEdge];
    assert ops[..1] == [ClearEdge] && ops[..1][..0] == [];
    assert ChangesOne(ops[..1]).clearedField;
  }

  // ----- the columns an update of one account returns -----

  datatype Selection = AllColumns | Selected(columns: seq<Column>) | InvalidField(name: string)

  function NotId(): Column -> bool { (c: Column) => c != Known(Id) }

  /** The id comes first and once, and the other columns follow as they were given; the first that is not of the table
      is refused. */
  method UpdateOneColumns(fields: seq<Column>) returns (r: Selection)
    ensures r.AllColumns? <==> fields == []
    ensures r.InvalidField? <==> exists i | 0 <= i < |fields| :: fields[i].Other?
    ensures r.InvalidField? ==> exists i | 0 <= i < |fields| :: fields[i] == Other(r.name) && forall j | 0 <= j < i :: fields[j].Known?
    ensures r.Selected? ==> r.columns == [Known(Id)] + Filter(NotId(), fields) && Known(Id) !in r.columns[1..]
  {
    if |fields| == 0 {
      return AllColumns;
    }
    var columns := [Known(Id)];
    for i := 0 to |fields|
      invariant forall j | 0 <= j < i :: fields[j].Known?
      invariant columns == [Known(Id)] + Filter(NotId(), fields[..i])
    {
      assert fields[..i + 1] == fields[..i] + [fields[i]];
      FilterSnoc(NotId(), fields[..i], fields[i]);
      if fields[i].Other? {
        return InvalidField(fields[i].name);
      }
      if fields[i] != Known(Id) {
        columns := columns + [fields[i]];
      }
    }
    assert fields[..|fields|] == fields;
    FilterIn(NotId(), fields, Known(Id));
    return Selected(columns);
  }
}
