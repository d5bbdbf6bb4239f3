/** Creating an account and reading it back: createSpec, the scan targets, and assignValues. */
module EntityCodec {
  import opened Relational
  import opened AccountFields

  // ----- the database's side -----

  /** A cell of a row. */
  datatype Cell = Null | IntC(n: int) | TextC(s: string) | TimeC(t: int) | BoolC(b: bool) | FloatC(r: real) | BytesC(bytes: seq<int>)

  /** The JSON codec: decode undoes encode, and no document is encoded as nothing at all. */
  datatype Codec = Codec(encode: Document -> seq<int>, decode: seq<int> -> Option<Document>)

  ghost predicate Inverse(json: Codec) {
    forall d :: json.decode(json.encode(d)) == Some(d) && json.encode(d) != []
  }

  /** How a value of a spec type is written to a cell. */
  function Encode(json: Codec, t: SpecType, v: Value): Cell {
    match (t, v)
    case (TypeInt64, IntV(n)) => IntC(n)
    case (TypeInt, IntV(n)) => IntC(n)
    case (TypeString, TextV(s)) => TextC(s)
    case (TypeEnum, TextV(s)) => TextC(s)
    case (TypeTime, TimeV(t)) => TimeC(t)
    case (TypeBool, BoolV(b)) => BoolC(b)
    case (TypeFloat64, FloatV(r)) => FloatC(r)
    case (TypeJSON, DocV(d)) => BytesC(json.encode(d))
    case _ => Null
  }

  /** A scan target and what was scanned into it. */
  datatype Holder = Holder(target: Target, valid: bool, value: Value, bytes: seq<int>, raw: Cell)

  function BlankHolder(t: Target): Holder { Holder(t, false, IntV(0), [], Null) }

  /** Scanning a cell into a target; None when the driver cannot convert it. */
  function Scan(h: Holder, c: Cell): Option<Holder> {
    match (h.target, c)
    case (UnknownType, _) => Some(h.(raw := c))
    case (RawBytes, Null) => Some(h.(bytes := []))
    case (RawBytes, BytesC(b)) => Some(h.(bytes := b))
    case (_, Null) => Some(h.(valid := false))
    case (NullInt64, IntC(n)) => Some(h.(valid := true, value := IntV(n)))
    case (NullString, TextC(s)) => Some(h.(valid := true, value := TextV(s)))
    case (NullTime, TimeC(t)) => Some(h.(valid := true, value := TimeV(t)))
    case (NullBool, BoolC(b)) => Some(h.(valid := true, value := BoolV(b)))
    case (NullFloat64, FloatC(r)) => Some(h.(valid := true, value := FloatV(r)))
    case _ => None
  }

  // ----- reading -----

  datatype AssignError = WrongCount | UnexpectedType(field: Field) | Unmarshal(field: Field)

  datatype Assigned = Fine(slot: Slot) | Failed(error: AssignError)

  /** What assignValues does to one field. */
  function AssignOne(json: Codec, f: Field, h: Holder, now: Slot): Assigned {
    if h.target != AssignTarget(f) then Failed(UnexpectedType(f))
    else if f == Id then Fine(Holds(if h.valid then h.value else IntV(0)))
    else if h.target == RawBytes then
      if h.bytes == [] then Fine(now)
      else
        var d := json.decode(h.bytes);
        if d.None? then Failed(Unmarshal(f)) else Fine(Holds(DocV(d.value)))
    else Fine(if h.valid then Holds(h.value) else now)
  }

  /** The fields of an account while its values are being assigned. */
  datatype Progress = Progress(slots: map<Field, Slot>, selected: map<string, Cell>, error: Option<AssignError>)

  function AssignColumn(json: Codec, c: Column, h: Holder, p: Progress): Progress
    requires forall f :: f in p.slots
  {
    match c
    case Other(name) => p.(selected := p.selected[name := h.raw])
    case Known(f) =>
      match AssignOne(json, f, h, p.slots[f])
      case Fine(slot) => p.(slots := p.slots[f := slot])
      case Failed(e) => p.(error := Some(e))
  }

  /** The columns are assigned in their order, up to the first that fails. */
  function AssignAll(json: Codec, columns: seq<Column>, values: seq<Holder>, p: Progress): (q: Progress)
    requires |columns| <= |values| && forall f :: f in p.slots
    ensures forall f :: f in q.slots
  {
    if columns == [] then p
    else
      var n := |columns| - 1;
      var q := AssignAll(json, columns[..n], values, p);
      if q.error.Some? then q else AssignColumn(json, columns[n], values[n], q)
  }

  const BlankSlots: map<Field, Slot> := map f: Field | true :: ZeroSlot(f)

  /** An account as an object: its columns, and whatever else was selected. */
  class Entity {
    var slots: map<Field, Slot>
    var selected: map<string, Cell>

    constructor ()
      ensures slots == BlankSlots && selected == map[]
    {
      slots, selected := BlankSlots, map[];
    }

    method AssignValues(json: Codec, columns: seq<Column>, values: array<Holder>) returns (err: Option<AssignError>)
      requires forall f :: f in slots
      modifies this
      ensures forall f :: f in slots
      ensures values.Length < |columns| ==> err == Some(WrongCount) && slots == old(slots) && selected == old(selected)
      ensures values.Length >= |columns| ==>
                Progress(slots, selected, err) == AssignAll(json, columns, values[..], Progress(old(slots), old(selected), None))
    {
      if values.Length < |columns| {
        return Some(WrongCount);
      }
      ghost var start := Progress(slots, selected, None);
      for i := 0 to |columns|
        invariant forall f :: f in slots
        invariant Progress(slots, selected, None) == AssignAll(json, columns[..i], values[..], start)
      {
        assert columns[..i + 1][..i] == columns[..i];
        AssignStops(json, columns, i + 1, values[..], start);
        match columns[i] {
          case Other(name) => selected := selected[name := values[i].raw];
          case Known(f) => {
            var r := AssignOne(json, f, values[i], slots[f]);
            if r.Failed? {
              return Some(r.error);
            }
            slots := slots[f := r.slot];
          }
        }
      }
      assert columns[..|columns|] == columns;
      return None;
    }
  }

  /** Once a column has failed, the rest is not looked at. */
  lemma {:induction false} AssignStops(json: Codec, columns: seq<Column>, n: nat, values: seq<Holder>, p: Progress)
    requires n <= |columns| <= |values| && forall f :: f in p.slots
    ensures AssignAll(json, columns[..n], values, p).error.Some? ==>
              AssignAll(json, columns, values, p) == AssignAll(json, columns[..n], values, p)
    decreases |columns|
  {
    if n < |columns| {
      var init := columns[..|columns| - 1];
      assert init[..n] == columns[..n];
      AssignStops(json, init, n, values, p);
    } else {
      assert columns[..n] == columns;
    }
  }

  method ScanValues(columns: seq<Column>) returns (values: array<Holder>)
    ensures fresh(values) && values.Length == |columns|
    ensures forall i | 0 <= i < |columns| :: values[i] == BlankHolder(ScanTarget(columns[i]))
  {
    values := new Holder[|columns|](_ => BlankHolder(UnknownType));
    for i := 0 to |columns|
      invariant forall j | 0 <= j < i :: values[j] == BlankHolder(ScanTarget(columns[j]))
    {
      values[i] := BlankHolder(ScanTarget(columns[i]));
    }
  }

  /** values are the scan targets of the columns with the row scanned into them. */
  ghost predicate Scanned(columns: seq<Column>, row: Column -> Cell, values: seq<Holder>) {
    && |values| == |columns|
    && forall i | 0 <= i < |columns| :: Some(values[i]) == Scan(BlankHolder(ScanTarget(columns[i])), row(columns[i]))
  }

  /** What an entity field holds after its cell was read. */
  function Read(json: Codec, f: Field, c: Cell): Slot {
    match c
    case Null => ZeroSlot(f)
    case IntC(n) => Holds(IntV(n))
    case TextC(s) => Holds(TextV(s))
    case TimeC(t) => Holds(TimeV(t))
    case BoolC(b) => Holds(BoolV(b))
    case FloatC(r) => Holds(FloatV(r))
    case BytesC(b) => if b == [] || json.decode(b).None? then ZeroSlot(f) else Holds(DocV(json.decode(b).value))
  }

  /** No scan target that scanValues allocates surprises assignValues, whatever the row holds. */
  lemma {:induction false} NoUnexpectedType(json: Codec, columns: seq<Column>, row: Column -> Cell,
                                            values: seq<Holder>, p: Progress)
    requires Scanned(columns, row, values) && p.error.None? && forall f :: f in p.slots
    ensures var e := AssignAll(json, columns, values, p).error; e.None? || e.value.Unmarshal?
  {
    if columns != [] {
      var n := |columns| - 1;
      NoUnexpectedType(json, columns[..n], row, values[..n], p);
      AssignPrefix(json, columns[..n], values[..n], values, p);
      var q := AssignAll(json, columns[..n], values, p);
      if q.error.None? { ColumnExpected(json, columns[n], row(columns[n]), values[n], q); }
    }
  }

  lemma ColumnExpected(json: Codec, c: Column, cell: Cell, h: Holder, p: Progress)
    requires Some(h) == Scan(BlankHolder(ScanTarget(c)), cell) && p.error.None? && forall f :: f in p.slots
    ensures var e := AssignColumn(json, c, h, p).error; e.None? || e.value.Unmarshal?
  {
    assert h.target == ScanTarget(c);
    if c.Known? { assert ScanTarget(c) == AssignTarget(c.field); }
  }

  lemma {:induction false} AssignPrefix(json: Codec, columns: seq<Column>, values: seq<Holder>, more: seq<Holder>,
                                        p: Progress)
    requires |columns| <= |values| && values <= more && forall f :: f in p.slots
    ensures AssignAll(json, columns, values, p) == AssignAll(json, columns, more, p)
  {
    if columns != [] { AssignPrefix(json, columns[..|columns| - 1], values, more, p); }
  }

  predicate Readable(json: Codec, c: Cell) { c.BytesC? && c.bytes != [] ==> json.decode(c.bytes).Some? }

  lemma AssignOneReads(json: Codec, f: Field, c: Cell, h: Holder, now: Slot)
    requires Scan(BlankHolder(ScanTarget(Known(f))), c) == Some(h) && Readable(json, c)
    requires now == ZeroSlot(f) || now == Read(json, f, c)
    ensures AssignOne(json, f, h, now) == Fine(Read(json, f, c))
  {
    assert ScanTarget(Known(f)) == AssignTarget(f);
  }

  /** The columns have been read: every selected field has what its cell says, the others their zero values. */
  ghost predicate ReadFrom(json: Codec, columns: seq<Column>, row: Column -> Cell, p: Progress) {
    && p.error.None?
    && (forall f :: f in p.slots && p.slots[f] == if Known(f) in columns then Read(json, f, row(Known(f))) else ZeroSlot(f))
    && forall name :: Other(name) in columns ==> name in p.selected && p.selected[name] == row(Other(name))
  }

  lemma ReadStep(json: Codec, columns: seq<Column>, row: Column -> Cell, c: Column, h: Holder, p: Progress)
    requires ReadFrom(json, columns, row, p) && Some(h) == Scan(BlankHolder(ScanTarget(c)), row(c))
    requires c.Known? ==> Readable(json, row(c))
    ensures ReadFrom(json, columns + [c], row, AssignColumn(json, c, h, p))
  {
    if c.Known? {
      AssignOneReads(json, c.field, row(c), h, p.slots[c.field]);
    } else {
      assert h.raw == row(c);
    }
  }

  /** Every selected field gets what its cell says, wherever its column stands and however often; the other
      fields keep their zero values. */
  lemma {:induction false} ReadsColumns(json: Codec, columns: seq<Column>, row: Column -> Cell, values: seq<Holder>)
    requires Scanned(columns, row, values) && forall f | Known(f) in columns :: Readable(json, row(Known(f)))
    ensures ReadFrom(json, columns, row, AssignAll(json, columns, values, Progress(BlankSlots, map[], None)))
  {
    if columns != [] {
      var n, start := |columns| - 1, Progress(BlankSlots, map[], None);
      var init, c := columns[..n], columns[n];
      assert columns == init + [c];
      ReadsColumns(json, init, row, values[..n]);
      AssignPrefix(json, init, values[..n], values, start);
      ReadStep(json, init, row, c, values[n], AssignAll(json, init, values, start));
    }
  }

  // ----- creating -----

  /** The extra columns of a join row. */
  datatype JoinField = JoinPriority(priority: int) | JoinCreatedAt(time: int)
  datatype JoinDefaults = JoinDefaults(priority: int, createdAt: int)

  datatype EdgeSpec = EdgeSpec(edge: Edge, nodes: seq<int>, fields: seq<JoinField>)

  datatype CreateSpec = CreateSpec(fields: map<Field, Cell>, edges: seq<EdgeSpec>)

  /** The template of a join row: the fields of an AccountGroup builder on which nothing but the defaults is set. */
  method JoinTemplate(d: JoinDefaults) returns (fields: seq<JoinField>)
    ensures fields == TemplateOf(d)
  {
    var priority, createdAt: Option<int> := None, None;
    if priority.None? {
      priority := Some(d.priority);
    }
    if createdAt.None? {
      createdAt := Some(d.createdAt);
    }
    fields := [];
    if priority.Some? {
      fields := fields + [JoinPriority(priority.value)];
    }
    if createdAt.Some? {
      fields := fields + [JoinCreatedAt(createdAt.value)];
    }
  }

  function TemplateOf(d: JoinDefaults): seq<JoinField> { [JoinPriority(d.priority), JoinCreatedAt(d.createdAt)] }

  /** The cell of a value, whatever spec type it was handed over with. */
  function CellOf(json: Codec, v: Value): Cell {
    match v
    case IntV(n) => IntC(n)
    case TextV(s) => TextC(s)
    case TimeV(t) => TimeC(t)
    case BoolV(b) => BoolC(b)
    case FloatV(r) => FloatC(r)
    case DocV(d) => BytesC(json.encode(d))
  }

  /** The fields of the account that createSpec returns, before it has an id. */
  function CreatedSlots(m: Mutation): map<Field, Slot> {
    map f: Field | true ::
      if f == ProxyID then (if m.proxy == [] then Nil else Holds(IntV(m.proxy[0])))
      else if f == ParentAccountID then (if m.parent == [] then Nil else Holds(IntV(m.parent[0])))
      else if f in m.fields then Holds(m.fields[f])
      else ZeroSlot(f)
  }

  function EdgeTo(e: Edge, nodes: seq<int>, fields: seq<JoinField>): seq<EdgeSpec> {
    if nodes == [] then [] else [EdgeSpec(e, nodes, fields)]
  }

  /** The edges of a creation: one for each that has ids, with all of them. */
  function CreatedEdges(m: Mutation, d: JoinDefaults): seq<EdgeSpec> {
    EdgeTo(Groups, m.groups, TemplateOf(d)) + EdgeTo(Proxy, m.proxy, []) + EdgeTo(Parent, m.parent, [])
    + EdgeTo(Children, m.children, []) + EdgeTo(UsageLogs, m.usageLogs, [])
  }

  /** No settable column is missing from the blocks of createSpec. */
  lemma BlocksCover(f: Field)
    requires HasBlock(f)
    ensures f in CREATE_BLOCKS
  {
    var j := match f
      case CreatedAt => 0 case UpdatedAt => 1 case DeletedAt => 2 case Name => 3 case Notes => 4
      case Platform => 5 case Type => 6 case Credentials => 7 case Extra => 8 case ProxyFallbackOriginID => 9
      case Concurrency => 10 case LoadFactor => 11 case Priority => 12 case RateMultiplier => 13
      case GroupRateMultiplier => 14 case Status => 15 case ErrorMessage => 16 case LastUsedAt => 17
      case ExpiresAt => 18 case AutoPauseOnExpired => 19 case Schedulable => 20 case RateLimitedAt => 21
      case RateLimitResetAt => 22 case OverloadUntil => 23 case TempUnschedulableUntil => 24
      case TempUnschedulableReason => 25 case SessionWindowStart => 26 case SessionWindowEnd => 27
      case SessionWindowStatus => 28 case QuotaDimension => 29 case _ => -1;
    assert CREATE_BLOCKS[j] == f;
  }

  lemma TypeFits(json: Codec, f: Field, v: Value)
    requires HasBlock(f) && TypeOf(v) == EntityType(f)
    ensures Encode(json, CreateType(f), v) == CellOf(json, v)
  {
    assert Fits(CreateType(f), EntityType(f));
  }

  /** The columns among done that are set have been handed over and put in the entity. */
  ghost predicate HandedOver(json: Codec, m: Mutation, done: seq<Field>, fields: map<Field, Cell>,
                             slots: map<Field, Slot>) {
    && (forall f :: f in fields <==> f in m.fields && f in done)
    && (forall f | f in fields :: fields[f] == CellOf(json, m.fields[f]))
    && forall f :: f in slots && slots[f] == if f in fields then Holds(m.fields[f]) else ZeroSlot(f)
  }

  lemma HandOver(json: Codec, m: Mutation, done: seq<Field>, f: Field, fields: map<Field, Cell>,
                 slots: map<Field, Slot>)
    requires HandedOver(json, m, done, fields, slots)
    ensures f !in m.fields ==> HandedOver(json, m, done + [f], fields, slots)
    ensures f in m.fields ==>
              HandedOver(json, m, done + [f], fields[f := CellOf(json, m.fields[f])], slots[f := Holds(m.fields[f])])
  {
  }

  /** The blocks of createSpec: each hands its column over when it is set. */
  method CreateFields(json: Codec, m: Mutation, blocks: seq<Field>, node: Entity) returns (fields: map<Field, Cell>)
    requires WellTyped(m) && node.slots == BlankSlots
    modifies node`slots
    ensures HandedOver(json, m, blocks, fields, node.slots)
  {
    fields := map[];
    for i := 0 to |blocks|
      invariant HandedOver(json, m, blocks[..i], fields, node.slots)
    {
      var f := blocks[i];
      HandOver(json, m, blocks[..i], f, fields, node.slots);
      assert blocks[..i + 1] == blocks[..i] + [f];
      if f in m.fields {
        TypeFits(json, f, m.fields[f]);
        fields := fields[f := Encode(json, CreateType(f), m.fields[f])];
        node.slots := node.slots[f := Holds(m.fields[f])];
      }
    }
    assert blocks[..|blocks|] == blocks;
  }

  /** The block of an edge whose links live elsewhere. */
  method AppendEdge(e: Edge, ids: seq<int>, fields: seq<JoinField>, edges: seq<EdgeSpec>) returns (out: seq<EdgeSpec>)
    ensures out == edges + EdgeTo(e, ids, fields)
  {
    out := edges;
    if |ids| > 0 {
      var nodes: seq<int> := [];
      for i := 0 to |ids|
        invariant nodes == ids[..i]
      {
        nodes := nodes + [ids[i]];
      }
      assert nodes == ids;
      out := out + [EdgeSpec(e, nodes, fields)];
    }
  }

  function WithKey(slots: map<Field, Slot>, f: Field, ids: seq<int>): map<Field, Slot> {
    if ids == [] then slots else slots[f := Holds(IntV(ids[0]))]
  }

  /** The block of an edge that lives in the account's own row: it also fills the foreign key. */
  method AppendKey(e: Edge, ids: seq<int>, f: Field, node: Entity, edges: seq<EdgeSpec>) returns (out: seq<EdgeSpec>)
    modifies node`slots
    ensures out == edges + EdgeTo(e, ids, []) && node.slots == WithKey(old(node.slots), f, ids)
  {
    out := AppendEdge(e, ids, [], edges);
    if |ids| > 0 {
      node.slots := node.slots[f := Holds(IntV(ids[0]))];
    }
  }

  method CreateEdges(m: Mutation, d: JoinDefaults, node: Entity) returns (edges: seq<EdgeSpec>)
    modifies node`slots
    ensures edges == CreatedEdges(m, d) && node.slots == WithKeys(old(node.slots), m)
  {
    var template: seq<JoinField> := [];
    if |m.groups| > 0 {
      template := JoinTemplate(d);
    }
    edges := AppendEdge(Groups, m.groups, template, []);
    assert edges == EdgeTo(Groups, m.groups, TemplateOf(d));
    edges := AppendKey(Proxy, m.proxy, ProxyID, node, edges);
    edges := AppendKey(Parent, m.parent, ParentAccountID, node, edges);
    edges := AppendEdge(Children, m.children, [], edges);
    edges := AppendEdge(UsageLogs, m.usageLogs, [], edges);
  }

  function WithKeys(slots: map<Field, Slot>, m: Mutation): map<Field, Slot> {
    WithKey(WithKey(slots, ProxyID, m.proxy), ParentAccountID, m.parent)
  }

  method CreateAllFields(json: Codec, m: Mutation, node: Entity) returns (fields: map<Field, Cell>)
    requires WellTyped(m) && node.slots == BlankSlots
    modifies node`slots
    ensures fields == CellsOf(json, m)
    ensures forall f :: f in node.slots && node.slots[f] == if f in m.fields then Holds(m.fields[f]) else ZeroSlot(f)
  {
    fields := CreateFields(json, m, CREATE_BLOCKS, node);
    forall f | f in m.fields ensures f in fields { BlocksCover(f); }
  }

  method BuildSpec(json: Codec, m: Mutation, d: JoinDefaults) returns (node: Entity, spec: CreateSpec)
    requires WellTyped(m)
    ensures fresh(node) && node.slots == CreatedSlots(m) && node.selected == map[]
    ensures spec == SpecOf(json, m, d)
  {
    node := new Entity();
    var fields := CreateAllFields(json, m, node);
    KeysSettle(node.slots, m);
    var edges := CreateEdges(m, d, node);
    spec := CreateSpec(fields, edges);
  }

  /** The spec stores what the mutation says and links what it names, and the returned account says the same. */
  method CreateSpecOf(json: Codec, m: Mutation, d: JoinDefaults) returns (node: Entity, spec: CreateSpec)
    requires WellTyped(m)
    ensures fresh(node) && node.slots == CreatedSlots(m) && node.selected == map[]
    ensures spec == SpecOf(json, m, d)
    ensures (Inverse(json) ==> Stores(json, m, spec)) && Links(m, d, spec.edges) && Tells(m, None, node.slots)
  {
    node, spec := BuildSpec(json, m, d);
    SpecMeans(json, m, d);
  }

  lemma SpecMeans(json: Codec, m: Mutation, d: JoinDefaults)
    requires WellTyped(m)
    ensures Inverse(json) ==> Stores(json, m, SpecOf(json, m, d))
    ensures Links(m, d, SpecOf(json, m, d).edges) && Tells(m, None, CreatedSlots(m))
  {
    if Inverse(json) { SpecStores(json, m, d); }
    SpecLinks(m, d);
    CreatedTells(m);
  }

  function CellsOf(json: Codec, m: Mutation): map<Field, Cell> { map f | f in m.fields :: CellOf(json, m.fields[f]) }

  /** The spec of a creation. */
  function SpecOf(json: Codec, m: Mutation, d: JoinDefaults): CreateSpec {
    CreateSpec(CellsOf(json, m), CreatedEdges(m, d))
  }

  lemma KeysSettle(slots: map<Field, Slot>, m: Mutation)
    requires WellTyped(m)
    requires forall f :: f in slots && slots[f] == if f in m.fields then Holds(m.fields[f]) else ZeroSlot(f)
    ensures WithKeys(slots, m) == CreatedSlots(m)
  {
  }

  // ----- the row that is stored -----

  /** The foreign key an edge of the creation puts in the account's own row. */
  function KeyOf(edges: seq<EdgeSpec>, e: Edge): Option<int> {
    if edges == [] then None
    else
      var last := edges[|edges| - 1];
      if last.edge == e && last.nodes != [] then Some(last.nodes[0]) else KeyOf(edges[..|edges| - 1], e)
  }

  /** The row of a creation: the columns of the spec, its keys, and the column defaults for the rest. */
  function StoredRow(spec: CreateSpec, id: int, defaults: Field -> Cell, extra: string -> Cell): Column -> Cell {
    (c: Column) =>
      match c
      case Other(name) => extra(name)
      case Known(f) =>
        if f == Id then IntC(id)
        else if f == ProxyID && KeyOf(spec.edges, Proxy).Some? then IntC(KeyOf(spec.edges, Proxy).value)
        else if f == ParentAccountID && KeyOf(spec.edges, Parent).Some? then IntC(KeyOf(spec.edges, Parent).value)
        else if f in spec.fields then spec.fields[f]
        else defaults(f)
  }

  /** What selecting a column of the stored row finds in an entity: the field of the returned account, or, where
      the creation said nothing, the column default. */
  lemma StoredReads(json: Codec, m: Mutation, d: JoinDefaults, id: int, defaults: Field -> Cell,
                    extra: string -> Cell, f: Field)
    requires WellTyped(m) && Inverse(json)
    ensures var c := StoredRow(SpecOf(json, m, d), id, defaults, extra)(Known(f));
            if Told(m, f) then FitsField(json, f, c) && Read(json, f, c) == CreatedSlots(m)[Id := Holds(IntV(id))][f]
            else c == defaults(f) && CreatedSlots(m)[f] == ZeroSlot(f)
  {
    RowCell(json, m, d, id, defaults, extra, f);
    RowSlot(m, id, f);
    if Told(m, f) { ValueReads(json, f, ToldValue(m, id, f)); }
  }

  /** What the creation says of a field. */
  function ToldValue(m: Mutation, id: int, f: Field): Value
    requires Told(m, f)
  {
    match f
    case Id => IntV(id)
    case ProxyID => IntV(m.proxy[0])
    case ParentAccountID => IntV(m.parent[0])
    case _ => m.fields[f]
  }

  lemma RowCell(json: Codec, m: Mutation, d: JoinDefaults, id: int, defaults: Field -> Cell, extra: string -> Cell,
                f: Field)
    requires WellTyped(m)
    ensures StoredRow(SpecOf(json, m, d), id, defaults, extra)(Known(f))
         == if Told(m, f) then CellOf(json, ToldValue(m, id, f)) else defaults(f)
  {
    EdgeKeys(m, d);
  }

  lemma RowSlot(m: Mutation, id: int, f: Field)
    requires WellTyped(m)
    ensures CreatedSlots(m)[Id := Holds(IntV(id))][f] == if Told(m, f) then Holds(ToldValue(m, id, f)) else ZeroSlot(f)
    ensures Told(m, f) ==> TypeOf(ToldValue(m, id, f)) == EntityType(f)
  {
  }

  /** The cell can be scanned and assigned. */
  predicate FitsField(json: Codec, f: Field, c: Cell) {
    Scan(BlankHolder(ScanTarget(Known(f))), c).Some? && Readable(json, c)
  }

  lemma ValueReads(json: Codec, f: Field, v: Value)
    requires Inverse(json) && TypeOf(v) == EntityType(f)
    ensures FitsField(json, f, CellOf(json, v)) && Read(json, f, CellOf(json, v)) == Holds(v)
  {
  }

  /** The creation says what the field holds. */
  predicate Told(m: Mutation, f: Field) {
    match f
    case Id => true
    case ProxyID => m.proxy != []
    case ParentAccountID => m.parent != []
    case _ => f in m.fields
  }

  lemma EdgeKeys(m: Mutation, d: JoinDefaults)
    ensures KeyOf(CreatedEdges(m, d), Proxy) == if m.proxy == [] then None else Some(m.proxy[0])
    ensures KeyOf(CreatedEdges(m, d), Parent) == if m.parent == [] then None else Some(m.parent[0])
  {
    forall e: Edge ensures KeyOf(CreatedEdges(m, d), e) == EdgeKey(m, e) {
      KeyTo(Groups, m.groups, TemplateOf(d), e);
      KeyTo(Proxy, m.proxy, [], e);
      KeyTo(Parent, m.parent, [], e);
      KeyTo(Children, m.children, [], e);
      KeyTo(UsageLogs, m.usageLogs, [], e);
      KeyOfFive(EdgeTo(Groups, m.groups, TemplateOf(d)), EdgeTo(Proxy, m.proxy, []), EdgeTo(Parent, m.parent, []),
                EdgeTo(Children, m.children, []), EdgeTo(UsageLogs, m.usageLogs, []), e);
    }
  }

  function EdgeKey(m: Mutation, e: Edge): Option<int> {
    var ids := match e case Groups => m.groups case Proxy => m.proxy case Parent => m.parent
                       case Children => m.children case UsageLogs => m.usageLogs;
    if ids == [] then None else Some(ids[0])
  }

  lemma {:induction false} KeyTo(to: Edge, nodes: seq<int>, fields: seq<JoinField>, e: Edge)
    ensures KeyOf(EdgeTo(to, nodes, fields), e) == if to == e && nodes != [] then Some(nodes[0]) else None
  {
  }

  lemma {:induction false} KeyOfFive(a: seq<EdgeSpec>, b: seq<EdgeSpec>, c: seq<EdgeSpec>, d: seq<EdgeSpec>,
                                     f: seq<EdgeSpec>, e: Edge)
    ensures KeyOf(a + b + c + d + f, e)
         == if KeyOf(f, e).Some? then KeyOf(f, e) else if KeyOf(d, e).Some? then KeyOf(d, e)
            else if KeyOf(c, e).Some? then KeyOf(c, e) else if KeyOf(b, e).Some? then KeyOf(b, e) else KeyOf(a, e)
  {
    KeyConcat(a + b + c + d, f, e);
    KeyConcat(a + b + c, d, e);
    KeyConcat(a + b, c, e);
    KeyConcat(a, b, e);
  }

  lemma {:induction false} KeyConcat(a: seq<EdgeSpec>, b: seq<EdgeSpec>, e: Edge)
    ensures KeyOf(a + b, e) == if KeyOf(b, e).Some? then KeyOf(b, e) else KeyOf(a, e)
  {
    if b == [] {
      assert a + b == a;
    } else {
      assert (a + b)[..|a + b| - 1] == a + b[..|b| - 1];
      KeyConcat(a, b[..|b| - 1], e);
    }
  }

  // ----- what a creation stores -----

  /** What a field holds by the mutation, given what it holds when the mutation says nothing. */
  function SaidOr(m: Mutation, id: Option<int>, f: Field, otherwise: Slot): Slot {
    match f
    case Id => if id.Some? then Holds(IntV(id.value)) else otherwise
    case ProxyID => if m.proxy == [] then otherwise else Holds(IntV(m.proxy[0]))
    case ParentAccountID => if m.parent == [] then otherwise else Holds(IntV(m.parent[0]))
    case _ => if f in m.fields then Holds(m.fields[f]) else otherwise
  }

  /** The row of spec, whatever its id and the defaults of the table, reads back through any columns as m says, and
      where m says nothing as the default. */
  ghost predicate Stores(json: Codec, m: Mutation, spec: CreateSpec) {
    forall id, defaults, extra, columns, values
      | Sound(json, defaults) && Scanned(columns, StoredRow(spec, id, defaults, extra), values) ::
      var q := AssignAll(json, columns, values, Progress(BlankSlots, map[], None));
      q.error.None?
      && forall f | Known(f) in columns :: q.slots[f] == SaidOr(m, Some(id), f, Read(json, f, defaults(f)))
  }

  /** The ids that the specs of an edge link. */
  ghost function LinkedBy(edges: seq<EdgeSpec>, e: Edge): set<int> { set s, k | s in edges && s.edge == e && k in s.nodes :: k }

  /** The edges of spec link the account to exactly the ids m names; a row that joins a group has a priority and a
      creation time of its own. */
  ghost predicate Links(m: Mutation, d: JoinDefaults, edges: seq<EdgeSpec>) {
    && LinkedBy(edges, Groups) == (set k | k in m.groups)
    && LinkedBy(edges, Proxy) == (set k | k in m.proxy)
    && LinkedBy(edges, Parent) == (set k | k in m.parent)
    && LinkedBy(edges, Children) == (set k | k in m.children)
    && LinkedBy(edges, UsageLogs) == (set k | k in m.usageLogs)
    && forall s | s in edges ::
         s.nodes != [] && s.fields == if s.edge == Groups then [JoinPriority(d.priority), JoinCreatedAt(d.createdAt)] else []
  }

  /** The account that a creation returns holds what m says, and zero values elsewhere. */
  ghost predicate Tells(m: Mutation, id: Option<int>, slots: map<Field, Slot>) {
    forall f :: f in slots && slots[f] == SaidOr(m, id, f, ZeroSlot(f))
  }

  lemma CreatedTells(m: Mutation)
    requires WellTyped(m)
    ensures Tells(m, None, CreatedSlots(m)) && forall id :: Tells(m, Some(id), CreatedSlots(m)[Id := Holds(IntV(id))])
  {
  }

  lemma {:induction false} SpecStores(json: Codec, m: Mutation, d: JoinDefaults)
    requires WellTyped(m) && Inverse(json)
    ensures Stores(json, m, SpecOf(json, m, d))
  {
    var spec := SpecOf(json, m, d);
    forall id, defaults, extra, columns, values
      | Sound(json, defaults) && Scanned(columns, StoredRow(spec, id, defaults, extra), values)
      ensures var q := AssignAll(json, columns, values, Progress(BlankSlots, map[], None));
        q.error.None? && forall f | Known(f) in columns :: q.slots[f] == SaidOr(m, Some(id), f, Read(json, f, defaults(f)))
    {
      RowReads(json, m, d, id, defaults, extra, columns, values);
    }
  }

  lemma {:induction false} RowReads(json: Codec, m: Mutation, d: JoinDefaults, id: int, defaults: Field -> Cell,
                                    extra: string -> Cell, columns: seq<Column>, values: seq<Holder>)
    requires WellTyped(m) && Inverse(json) && Sound(json, defaults)
    requires Scanned(columns, StoredRow(SpecOf(json, m, d), id, defaults, extra), values)
    ensures var q := AssignAll(json, columns, values, Progress(BlankSlots, map[], None));
      q.error.None? && forall f | Known(f) in columns :: q.slots[f] == SaidOr(m, Some(id), f, Read(json, f, defaults(f)))
  {
    var row := StoredRow(SpecOf(json, m, d), id, defaults, extra);
    forall f | Known(f) in columns ensures Readable(json, row(Known(f))) { StoredReads(json, m, d, id, defaults, extra, f); }
    ReadsColumns(json, columns, row, values);
    CreatedTells(m);
    forall f | Known(f) in columns ensures Read(json, f, row(Known(f))) == SaidOr(m, Some(id), f, Read(json, f, defaults(f))) {
      StoredReads(json, m, d, id, defaults, extra, f);
    }
  }

  lemma {:induction false} SpecLinks(m: Mutation, d: JoinDefaults)
    ensures Links(m, d, CreatedEdges(m, d))
  {
    var edges := CreatedEdges(m, d);
    forall s: EdgeSpec ensures s in edges <==>
      || (m.groups != [] && s == EdgeSpec(Groups, m.groups, TemplateOf(d)))
      || (m.proxy != [] && s == EdgeSpec(Proxy, m.proxy, []))
      || (m.parent != [] && s == EdgeSpec(Parent, m.parent, []))
      || (m.children != [] && s == EdgeSpec(Children, m.children, []))
      || (m.usageLogs != [] && s == EdgeSpec(UsageLogs, m.usageLogs, []))
    {
      InFive(EdgeTo(Groups, m.groups, TemplateOf(d)), EdgeTo(Proxy, m.proxy, []), EdgeTo(Parent, m.parent, []),
             EdgeTo(Children, m.children, []), EdgeTo(UsageLogs, m.usageLogs, []), s);
    }
    LinksOf(edges, Groups, m.groups, TemplateOf(d));
    LinksOf(edges, Proxy, m.proxy, []);
    LinksOf(edges, Parent, m.parent, []);
    LinksOf(edges, Children, m.children, []);
    LinksOf(edges, UsageLogs, m.usageLogs, []);
  }

  lemma InFive(a: seq<EdgeSpec>, b: seq<EdgeSpec>, c: seq<EdgeSpec>, d: seq<EdgeSpec>, e: seq<EdgeSpec>, s: EdgeSpec)
    ensures s in a + b + c + d + e <==> s in a || s in b || s in c || s in d || s in e
  {
  }

  lemma LinksOf(edges: seq<EdgeSpec>, e: Edge, ids: seq<int>, fields: seq<JoinField>)
    requires forall s: EdgeSpec | s.edge == e :: s in edges <==> ids != [] && s == EdgeSpec(e, ids, fields)
    ensures LinkedBy(edges, e) == set k | k in ids
  {
    forall k | k in ids ensures k in LinkedBy(edges, e) {
      assert EdgeSpec(e, ids, fields) in edges && k in EdgeSpec(e, ids, fields).nodes;
    }
  }

  predicate SameFields(columns: seq<Column>, a: map<Field, Slot>, b: map<Field, Slot>)
    requires forall f :: f in a && f in b
  {
    forall f | Known(f) in columns :: a[f] == b[f]
  }

  /** Every default can at least be read back. */
  ghost predicate Sound(json: Codec, defaults: Field -> Cell) {
    forall f :: FitsField(json, f, defaults(f))
  }

  /** Storing a creation and reading any columns back, in any order, repeated or not, gives the account that the
      creation returned exactly when the defaults of the columns it left out read as their zero values. */
  lemma {:induction false} RoundTrip(json: Codec, m: Mutation, d: JoinDefaults, id: int, defaults: Field -> Cell,
                                     extra: string -> Cell,
                  columns: seq<Column>, values: seq<Holder>)
    requires WellTyped(m) && Inverse(json) && Sound(json, defaults)
    requires Scanned(columns, StoredRow(SpecOf(json, m, d), id, defaults, extra), values)
    ensures var q := AssignAll(json, columns, values, Progress(BlankSlots, map[], None));
            && q.error.None?
            && (SameFields(columns, q.slots, CreatedSlots(m)[Id := Holds(IntV(id))]) <==>
                (forall f | Known(f) in columns && !Told(m, f) :: Read(json, f, defaults(f)) == ZeroSlot(f)))
  {
    var row := StoredRow(SpecOf(json, m, d), id, defaults, extra);
    forall f | Known(f) in columns ensures Readable(json, row(Known(f))) { StoredReads(json, m, d, id, defaults, extra, f); }
    ReadsColumns(json, columns, row, values);
    var q := AssignAll(json, columns, values, Progress(BlankSlots, map[], None));
    forall f | Known(f) in columns
      ensures q.slots[f] == CreatedSlots(m)[Id := Holds(IntV(id))][f] <==> Told(m, f) || Read(json, f, defaults(f)) == ZeroSlot(f)
    {
      StoredReads(json, m, d, id, defaults, extra, f);
    }
  }

  /** check demands exactly the fields that cannot be nil. */
  lemma RequiredAreValues(f: Field)
    ensures Required(f) <==> !Nillable(f) && f != Id
  {
  }

  /** rows.Scan: the driver fills the scan targets. */
  method ScanRow(columns: seq<Column>, row: Column -> Cell, values: array<Holder>)
    requires values.Length == |columns|
    requires forall i | 0 <= i < |columns| :: values[i] == BlankHolder(ScanTarget(columns[i]))
    requires forall c | c in columns :: Scan(BlankHolder(ScanTarget(c)), row(c)).Some?
    modifies values
    ensures Scanned(columns, row, values[..])
  {
    for i := 0 to |columns|
      invariant Scanned(columns[..i], row, values[..i])
      invariant forall j | i <= j < |columns| :: values[j] == BlankHolder(ScanTarget(columns[j]))
    {
      assert columns[i] in columns;
      values[i] := Scan(values[i], row(columns[i])).value;
    }
    assert columns[..|columns|] == columns && values[..|columns|] == values[..];
  }

  /** Create an account whose mutation passed check, and read it back through any columns. */
  method CreateAndRead(json: Codec, m: Mutation, d: JoinDefaults, id: int, defaults: Field -> Cell,
                       extra: string -> Cell,
                       columns: seq<Column>)
    returns (node: Entity, copy: Entity, err: Option<AssignError>)
    requires WellTyped(m) && Inverse(json) && Sound(json, defaults)
    requires forall f | Required(f) :: f in m.fields
    requires forall f | Nillable(f) :: defaults(f) == Null
    ensures err.None? && (forall f :: f in node.slots && f in copy.slots)
    ensures node.slots == CreatedSlots(m)[Id := Holds(IntV(id))] && SameFields(columns, copy.slots, node.slots)
  {
    var spec;
    node, spec := CreateSpecOf(json, m, d);
    node.slots := node.slots[Id := Holds(IntV(id))];
    var row := StoredRow(spec, id, defaults, extra);
    var values := ScanValues(columns);
    RowScans(json, m, d, id, defaults, extra, columns);
    ScanRow(columns, row, values);
    copy := new Entity();
    err := copy.AssignValues(json, columns, values);
    RoundTrip(json, m, d, id, defaults, extra, columns, values[..]);
    forall f | !Told(m, f) ensures Read(json, f, defaults(f)) == ZeroSlot(f) { RequiredAreValues(f); }
  }

  lemma RowScans(json: Codec, m: Mutation, d: JoinDefaults, id: int, defaults: Field -> Cell, extra: string -> Cell,
                 columns: seq<Column>)
    requires WellTyped(m) && Inverse(json) && Sound(json, defaults)
    ensures forall c | c in columns :: Scan(BlankHolder(ScanTarget(c)), StoredRow(SpecOf(json, m, d), id, defaults, extra)(c)).Some?
  {
    var row := StoredRow(SpecOf(json, m, d), id, defaults, extra);
    forall c | c in columns ensures Scan(BlankHolder(ScanTarget(c)), row(c)).Some? {
      if c.Known? {
        StoredReads(json, m, d, id, defaults, extra, c.field);
        assert FitsField(json, c.field, row(c));
      }
    }
  }
}
