/** AccountCreate and AccountCreateBulk as the objects they are. */
module BulkCreate {
  import opened Relational
  import opened AccountFields
  import opened EntityCodec
  import opened CreateChecks
  import opened BulkTraces
  import opened Sealing

  /** A mutation: what was set on it, and, once it is done, a pointer to the account whose id is its own. */
  class MutationBox {
    var m: Mutation
    var account: Entity?
    var done: bool

    constructor (m: Mutation)
      ensures this.m == m && account == null && !done
    {
      this.m, account, done := m, null, false;
    }

    /** Reading through the pointer that was stored. */
    method ID() returns (id: Option<Slot>)
      requires account != null ==> Id in account.slots
      ensures id == if account == null then None else Some(account.slots[Id])
    {
      if account == null {
        return None;
      }
      return Some(account.slots[Id]);
    }
  }

  class AccountCreate {
    var mutation: MutationBox
    const hooks: seq<Hook<MutationBox>>

    constructor (mutation: MutationBox, hooks: seq<Hook<MutationBox>>)
      ensures this.mutation == mutation && this.hooks == hooks
    {
      this.mutation, this.hooks := mutation, hooks;
    }

    /** defaults sets what is not set, and stops at an uninitialised default. */
    method SetDefaults(d: Defaults) returns (err: Option<Failure>)
      modifies mutation`m
      ensures (mutation.m.fields, err) == Defaulted(d, old(mutation.m.fields), DEFAULTED)
      ensures mutation.m == old(mutation.m).(fields := mutation.m.fields)
      ensures err.None? ==> forall f | Required(f) && f !in {Name, Platform, Type} :: f in mutation.m.fields
      ensures forall f | f in mutation.m.fields ::
        if f in old(mutation.m.fields) then mutation.m.fields[f] == old(mutation.m.fields)[f]
        else Required(f) && f !in {Name, Platform, Type} && f in d.values && mutation.m.fields[f] == d.values[f]
    {
      DefaultsGiven(d, mutation.m.fields);
      for i := 0 to |DEFAULTED|
        invariant Defaulted(d, mutation.m.fields, DEFAULTED[i..]) == Defaulted(d, old(mutation.m.fields), DEFAULTED)
        invariant mutation.m == old(mutation.m).(fields := mutation.m.fields)
      {
        assert DEFAULTED[i..][1..] == DEFAULTED[i + 1..];
        var f := DEFAULTED[i];
        if f !in mutation.m.fields {
          if f !in d.values {
            return Some(NoDefault(f));
          }
          mutation.m := mutation.m.(fields := mutation.m.fields[f := d.values[f]]);
        }
      }
      return None;
    }

    method RunCheck(valid: Validators) returns (err: Option<Failure>)
      ensures err == Check(valid, mutation.m.fields)
    {
      for i := 0 to |CHECK_STEPS|
        invariant CheckFrom(valid, mutation.m.fields, CHECK_STEPS[i..]) == Check(valid, mutation.m.fields)
      {
        assert CHECK_STEPS[i..][1..] == CHECK_STEPS[i + 1..];
        err := StepFails(valid, mutation.m.fields, CHECK_STEPS[i]);
        if err.Some? {
          return;
        }
      }
      return None;
    }
  }

  /** A link of the chain: a hook around the rest, or builder's own mutator. */
  datatype Mutator = Core(builder: nat) | Hooked(hook: Hook<MutationBox>, inner: Mutator)

  function Wrapped(i: nat, hooks: seq<Hook<MutationBox>>, k: nat): Mutator
    requires k <= |hooks|
    decreases |hooks| - k
  {
    if k == |hooks| then Core(i) else Hooked(hooks[k], Wrapped(i, hooks, k + 1))
  }

  /** The mutation that the first k hooks hand on. */
  function Handed(hooks: seq<Hook<MutationBox>>, k: nat, m: MutationBox): MutationBox
    requires k <= |hooks|
  {
    if k == 0 then m
    else match hooks[k - 1]
         case Replace(with) => with
         case _ => Handed(hooks, k - 1, m)
  }

  /** The last of the first n hooks that hands on another mutation, or -1. */
  function LastReplace(hooks: seq<Hook<MutationBox>>, n: nat): (k: int)
    requires n <= |hooks|
    ensures -1 <= k < n && (k >= 0 ==> hooks[k].Replace?) && forall h | k < h < n :: !hooks[h].Replace?
  {
    if n == 0 then -1 else if hooks[n - 1].Replace? then n - 1 else LastReplace(hooks, n - 1)
  }

  lemma {:induction false} HandedLast(hooks: seq<Hook<MutationBox>>, n: nat, m: MutationBox)
    requires n <= |hooks|
    ensures Handed(hooks, n, m) == var k := LastReplace(hooks, n); if k < 0 then m else hooks[k].with
  {
    if n > 0 && !hooks[n - 1].Replace? { HandedLast(hooks, n - 1, m); }
  }

  /** A spec waiting for the id the database gives it. */
  datatype PendingSpec = PendingSpec(spec: CreateSpec, id: Option<int>)

  /** What the run takes from outside; the answer of the database included. */
  datatype Setting = Setting(
    json: Codec, join: JoinDefaults, defaults: Defaults, valid: Validators, database: Option<Failure>, ids: nat -> Option<int>)

  /** The account that a builder returns. */
  function Returned(m: Mutation, id: Option<int>): map<Field, Slot> {
    if id.None? then CreatedSlots(m) else CreatedSlots(m)[Id := Holds(IntV(id.value))]
  }

  lemma ReturnedTells(m: Mutation, id: Option<int>)
    requires WellTyped(m)
    ensures Tells(m, id, Returned(m, id))
  {
    CreatedTells(m);
  }

  function BatchOf(s: Setting, ms: seq<Mutation>): seq<CreateSpec> {
    seq(|ms|, j requires 0 <= j < |ms| => SpecOf(s.json, ms[j], s.join))
  }

  ghost predicate ReplacedIn(builders: seq<AccountCreate>, boxes: set<MutationBox>) {
    forall j, k | 0 <= j < |builders| && 0 <= k < |builders[j].hooks| && builders[j].hooks[k].Replace? ::
      builders[j].hooks[k].with in boxes
  }

  /** The variables that the mutators of one bulk Save close over. */
  class BulkRun {
    const s: Setting
    const builders: seq<AccountCreate>
    const specs: array<Option<PendingSpec>>
    const nodes: array<Entity?>
    const mutators: array<Option<Mutator>>
    ghost const start: seq<MutationBox>  // the builders' mutations when the chain starts
    ghost const boxes: set<MutationBox>  // all mutations around
    ghost const makers: set<AccountCreate>
    var written: seq<seq<CreateSpec>>    // the batches the database accepted

    constructor (s: Setting, builders: seq<AccountCreate>, ghost boxes: set<MutationBox>)
      requires ReplacedIn(builders, boxes) && forall b | b in builders :: b.mutation in boxes
      ensures Shape() && this.s == s && this.builders == builders && this.boxes == boxes
      ensures makers == (set b | b in builders)
      ensures fresh(specs) && fresh(nodes) && fresh(mutators) && written == []
      ensures forall j | 0 <= j < |builders| :: start[j] == builders[j].mutation
    {
      this.s, this.builders, this.boxes := s, builders, boxes;
      specs := new Option<PendingSpec>[|builders|](_ => None);
      nodes := new Entity?[|builders|](_ => null);
      mutators := new Option<Mutator>[|builders|](_ => None);
      start := seq(|builders|, j requires 0 <= j < |builders| reads set b | b in builders => builders[j].mutation);
      makers := set b | b in builders;
      written := [];
    }

    ghost predicate Shape() {
      && |start| == |builders| == specs.Length == nodes.Length == mutators.Length
      && (forall j | 0 <= j < |start| :: start[j] in boxes && builders[j] in makers)
      && forall k {:trigger Open(Contained, k)} :: Open(Contained, k) ==> ReplacedIn(builders, boxes)
    }

    /** The mutation of builder j when the mutator of builder i is called: the same builder may stand there twice. */
    ghost function Pointer(i: nat, j: nat): MutationBox
      requires Shape() && i <= |builders| && j < |builders|
      ensures Pointer(i, j) in boxes
      decreases i, 0
    {
      if i == 0 then start[j]
      else if builders[i - 1] == builders[j] then Arrived(i - 1)
      else Pointer(i - 1, j)
    }

    /** The mutation that reaches builder i's own mutator. */
    ghost function Arrived(i: nat): MutationBox
      requires Shape() && i < |builders|
      ensures Arrived(i) in boxes
      decreases i, 1
    {
      HandedIn(i, |builders[i].hooks|, Pointer(i, i));
      Handed(builders[i].hooks, |builders[i].hooks|, Pointer(i, i))
    }

    lemma {:induction false} HandedIn(i: nat, k: nat, m: MutationBox)
      requires Shape() && i < |builders| && k <= |builders[i].hooks| && m in boxes
      ensures Handed(builders[i].hooks, k, m) in boxes
      decreases i, 0, k
    {
      assert Open(Contained, 0);
      if k > 0 { HandedIn(i, k - 1, m); }
    }

    /** r and ms say what the mutations hold. */
    ghost predicate Scripted(r: Run<MutationBox>, ms: seq<Mutation>)
      requires Shape()
      reads boxes`m
    {
      && r.Valid() && |r.hooks| == |builders| == |ms| && r.database == s.database
      && (forall j | 0 <= j < |builders| :: r.hooks[j] == builders[j].hooks)
      && forall k {:trigger Open(Scripts, k)} :: Open(Scripts, k) ==> forall j | 0 <= j < |builders| :: Says(r, ms, j)
    }

    ghost predicate Says(r: Run<MutationBox>, ms: seq<Mutation>, j: nat)
      requires Shape() && r.Valid() && |r.hooks| == |builders| == |ms| && j < |builders|
      reads boxes`m
    {
      && r.checks[j] == Check(s.valid, Pointer(j, j).m.fields)
      && ms[j] == Arrived(j).m && WellTyped(ms[j])
    }

    lemma Said(r: Run<MutationBox>, ms: seq<Mutation>, j: nat)
      requires Shape() && Scripted(r, ms) && j < |builders|
      ensures Says(r, ms, j)
    {
      assert Open(Scripts, 0);
    }

    ghost predicate Stored()
      requires Shape()
      reads mutators
    {
      forall j | 0 <= j < |builders| :: mutators[j] == Some(Wrapped(j, builders[j].hooks, 0))
    }

    ghost predicate Filled(i: nat, ms: seq<Mutation>)
      requires Shape() && i <= |builders| == |ms|
      reads specs, nodes
    {
      forall j | 0 <= j < i :: specs[j] == Some(PendingSpec(SpecOf(s.json, ms[j], s.join), None)) && nodes[j] != null
    }

    /** The builder, from i on, under whose Done event box b is marked last. */
    ghost function Mark(t: seq<Event>, i: nat, b: MutationBox): Option<nat>
      requires Shape() && i <= |builders|
      ensures Mark(t, i, b).Some? ==> i <= Mark(t, i, b).value < |builders| && Done(Mark(t, i, b).value) in t
      decreases |builders| - i
    {
      if i == |builders| then None
      else if Done(i) in t && Arrived(i) == b then Some(i)
      else Mark(t, i + 1, b)
    }

    /** No earlier builder's own mutator is handed the same mutation. */
    ghost predicate IsFirst(j: nat)
      requires Shape() && j < |builders|
    {
      forall l | 0 <= l < j :: Arrived(l) != Arrived(j)
    }

    /** The first builder whose own mutator is handed the same mutation. */
    ghost function First(j: nat): (f: nat)
      requires Shape() && j < |builders|
      ensures f <= j && Arrived(f) == Arrived(j) && IsFirst(f) && (f == j <==> IsFirst(j))
    {
      FirstFrom(0, j)
    }

    ghost function FirstFrom(l: nat, j: nat): (f: nat)
      requires Shape() && l <= j < |builders| && forall k | 0 <= k < l :: Arrived(k) != Arrived(j)
      ensures f <= j && Arrived(f) == Arrived(j) && IsFirst(f) && (f == j <==> IsFirst(j))
      decreases j - l
    {
      if Arrived(l) == Arrived(j) then l else FirstFrom(l + 1, j)
    }

    /** The last of the first i places at which builder j stands, or -1. */
    ghost function LastPlace(i: nat, j: nat): (l: int)
      requires i <= |builders| && j < |builders|
      ensures -1 <= l < i && (l >= 0 ==> builders[l] == builders[j]) && (j < i ==> j <= l)
    {
      if i == 0 then -1 else if builders[i - 1] == builders[j] then i - 1 else LastPlace(i - 1, j)
    }

    lemma {:induction false} PointerAt(i: nat, j: nat)
      requires Shape() && i <= |builders| && j < |builders|
      ensures Pointer(i, j) == var l := LastPlace(i, j); if l < 0 then start[j] else Arrived(l)
    {
      if i > 0 && builders[i - 1] != builders[j] { PointerAt(i - 1, j); }
    }

    /** The result of a successful run: every account with its id, every mutation done; a mutation that several
        builders share points to the account of the first of them. */
    ghost predicate Complete(nodes: seq<Entity>, ms: seq<Mutation>)
      requires Shape() && |ms| == |builders|
      reads nodes, boxes`done, boxes`account
    {
      && |nodes| == |builders|
      && (forall j | 0 <= j < |nodes| :: nodes[j].slots == Returned(ms[j], s.ids(j)) && Arrived(j).done)
      && forall j | 0 <= j < |nodes| :: Arrived(j).account == nodes[First(j)]
    }

    /** One INSERT for the whole batch; the ids go to the specs. */
    method BatchCreate(ghost ms: seq<Mutation>) returns (err: Option<Failure>)
      requires Shape() && |ms| == |builders| && Filled(|builders|, ms)
      modifies specs, this`written
      ensures err == s.database
      ensures written == old(written) + if err.None? then [BatchOf(s, ms)] else []
      ensures forall j | 0 <= j < |builders| :: specs[j].Some? && (err.None? ==> specs[j].value.id == s.ids(j))
    {
      if s.database.Some? {
        return s.database;
      }
      var batch: seq<CreateSpec> := [];
      for j := 0 to |builders|
        invariant Filled(|builders|, ms)
        invariant batch == BatchOf(s, ms)[..j]
      {
        batch := batch + [specs[j].value.spec];
      }
      assert batch == BatchOf(s, ms);
      written := written + [batch];
      for j := 0 to |builders|
        invariant written == old(written) + [BatchOf(s, ms)]
        invariant forall l | 0 <= l < |builders| :: specs[l].Some? && (l < j ==> specs[l].value.id == s.ids(l))
      {
        specs[j] := Some(specs[j].value.(id := s.ids(j)));
      }
      return None;
    }

    /** The marks on the mutations before the chain starts. */
    ghost predicate Before(dones: map<MutationBox, bool>, accounts: map<MutationBox, Entity?>)
      reads boxes`done, boxes`account
    {
      forall b | b in boxes :: b in dones && b in accounts && dones[b] == b.done && accounts[b] == b.account
    }

    /** What a run with trace t has left on the nodes of the builders from i on, on the mutations, and in the
        builders. */
    ghost predicate Marked(t: seq<Event>, i: nat, ms: seq<Mutation>, dones: map<MutationBox, bool>,
                           accounts: map<MutationBox, Entity?>, made: set<Entity>)
      requires Shape() && i <= |builders| == |ms|
      reads nodes, boxes`done, boxes`account, makers`mutation, made
    {
      && Pointed(t, i)
      && forall k {:trigger Open(Marks, k)} :: Open(Marks, k) ==> MarkedBy(t, i, ms, dones, accounts, made)
    }

    /** Each builder points to the mutation that stood there when the last check of t passed. */
    ghost predicate Pointed(t: seq<Event>, i: nat)
      requires Shape()
      reads makers`mutation
    {
      forall k {:trigger Open(Pointers, k)} :: Open(Pointers, k) ==> Pointing(i + Passed(t))
    }

    lemma PointedGrows(t: seq<Event>, i: nat, a: Event, b: seq<Event>)
      requires Shape() && !a.Write? && (b == [] || (|b| == 1 && !b[0].Checked?))
      requires Pointed(t, if a.Checked? then i + 1 else i)
      ensures Pointed([a] + t + b, i)
    {
      assert Open(Pointers, 0);
      PassedFramed(a, t, b);
    }

    ghost predicate MarkedBy(t: seq<Event>, i: nat, ms: seq<Mutation>, dones: map<MutationBox, bool>,
                             accounts: map<MutationBox, Entity?>, made: set<Entity>)
      requires Shape() && i <= |builders| == |ms|
      reads nodes, boxes`done, boxes`account, made
    {
      NodesMarked(t, i, ms, made) && BoxesMarked(t, i, dones, accounts)
    }

    ghost predicate NodesMarked(t: seq<Event>, i: nat, ms: seq<Mutation>, made: set<Entity>)
      requires Shape() && i <= |builders| == |ms|
      reads nodes, made
    {
      && (forall j | 0 <= j < i :: Done(j) !in t)
      && forall j | i <= j < |builders| && Done(j) in t ::
           nodes[j] != null && nodes[j] in made && nodes[j].slots == Returned(ms[j], s.ids(j))
    }

    ghost predicate BoxesMarked(t: seq<Event>, i: nat, dones: map<MutationBox, bool>,
                                accounts: map<MutationBox, Entity?>)
      requires Shape() && i <= |builders|
      reads nodes, boxes`done, boxes`account
    {
      forall b | b in boxes :: b in dones && b in accounts
        && (var j := Mark(t, i, b);
            if j.None? then b.done == dones[b] && b.account == accounts[b] else b.done && b.account == nodes[j.value])
    }

    lemma {:induction false} MarkAgrees(t: seq<Event>, u: seq<Event>, i: nat, b: MutationBox)
      requires Shape() && i <= |builders| && forall j | i <= j < |builders| :: Done(j) in t <==> Done(j) in u
      ensures Mark(t, i, b) == Mark(u, i, b)
      decreases |builders| - i
    {
      if i < |builders| { MarkAgrees(t, u, i + 1, b); }
    }

    lemma MarkedAgrees(t: seq<Event>, u: seq<Event>, i: nat, ms: seq<Mutation>, dones: map<MutationBox, bool>,
                       accounts: map<MutationBox, Entity?>, made: set<Entity>)
      requires Shape() && i <= |builders| == |ms| && Marked(t, i, ms, dones, accounts, made)
      requires Pointed(u, i) && forall j :: Done(j) in t <==> Done(j) in u
      ensures Marked(u, i, ms, dones, accounts, made)
    {
      assert Open(Marks, 0);
      forall b | b in boxes ensures Mark(t, i, b) == Mark(u, i, b) { MarkAgrees(t, u, i, b); }
    }

    lemma {:induction false} NothingMarked(t: seq<Event>, i: nat, ms: seq<Mutation>, dones: map<MutationBox, bool>,
                        accounts: map<MutationBox, Entity?>)
      requires Shape() && i <= |builders| == |ms| && Before(dones, accounts) && forall j :: Done(j) !in t
      requires Pointing(i) && Passed(t) == 0
      ensures Marked(t, i, ms, dones, accounts, {})
    {
    }

    /** A builder that does not finish leaves the marks of the later ones. */
    lemma MarkedFrom(t: seq<Event>, i: nat, ms: seq<Mutation>, dones: map<MutationBox, bool>,
                     accounts: map<MutationBox, Entity?>, made: set<Entity>)
      requires Shape() && i < |builders| == |ms| && Marked(t, i + 1, ms, dones, accounts, made)
      ensures Marked([Checked(i)] + t, i, ms, dones, accounts, made)
    {
      assert Open(Marks, 0);
      PointedGrows(t, i, Checked(i), []);
      assert [Checked(i)] + t + [] == [Checked(i)] + t;
      forall b | b in boxes ensures Mark(t, i + 1, b) == Mark([Checked(i)] + t, i + 1, b) {
        MarkAgrees(t, [Checked(i)] + t, i + 1, b);
      }
    }

    /** Every builder points to the mutation that it has when the mutator of builder i is called. */
    ghost predicate Pointing(i: nat)
      requires Shape()
      reads makers`mutation
    {
      i <= |builders| && forall j | 0 <= j < |builders| :: builders[j].mutation == Pointer(i, j)
    }

    method FillSlots(i: nat, m: MutationBox, ghost r: Run<MutationBox>, ghost ms: seq<Mutation>) returns (node: Entity)
      requires Shape() && i < |builders| && Scripted(r, ms) && m == Arrived(i)
      requires Filled(i, ms) && Pointing(i)
      modifies specs, nodes, makers`mutation
      ensures fresh(node) && nodes[i] == node && node.slots == CreatedSlots(ms[i])
      ensures Filled(i + 1, ms) && Pointing(i + 1)
      ensures forall j | 0 <= j < i :: nodes[j] == old(nodes[j])
    {
      Point(i, m);
      var spec;
      node, spec := Make(i, m, r, ms);
      Put(i, node, spec, ms);
    }

    method Make(i: nat, m: MutationBox, ghost r: Run<MutationBox>, ghost ms: seq<Mutation>) returns (node: Entity,
                spec: CreateSpec)
      requires Shape() && i < |builders| && Scripted(r, ms) && m == Arrived(i)
      ensures fresh(node) && node.slots == CreatedSlots(ms[i]) && spec == SpecOf(s.json, ms[i], s.join)
    {
      Said(r, ms, i);
      node, spec := CreateSpecOf(s.json, m.m, s.join);
    }

    method Point(i: nat, m: MutationBox)
      requires Shape() && i < |builders| && m == Arrived(i) && Pointing(i)
      modifies makers`mutation
      ensures Pointing(i + 1)
    {
      builders[i].mutation := m;
    }

    method Put(i: nat, node: Entity, spec: CreateSpec, ghost ms: seq<Mutation>)
      requires Shape() && i < |builders| == |ms| && Filled(i, ms) && spec == SpecOf(s.json, ms[i], s.join)
      modifies specs, nodes
      ensures nodes[i] == node && Filled(i + 1, ms)
      ensures forall j | 0 <= j < i :: nodes[j] == old(nodes[j])
    {
      nodes[i], specs[i] := node, Some(PendingSpec(spec, None));
    }

    method CallNext(i: nat, ghost r: Run<MutationBox>, ghost ms: seq<Mutation>, ghost dones: map<MutationBox, bool>,
                    ghost accounts: map<MutationBox, Entity?>)
      returns (err: Option<Failure>, ghost t: seq<Event>, ghost made: set<Entity>)
      requires Shape() && Stored() && Scripted(r, ms) && Before(dones, accounts)
      requires i < |builders| && Filled(i + 1, ms)
      requires Pointing(i + 1)
      modifies this`written, specs, nodes, makers`mutation, boxes`account, boxes`done
      ensures Outcome(t, err) == Next(r, i) && fresh(made)
      ensures written == old(written) + if Write in t then [BatchOf(s, ms)] else []
      ensures forall j | 0 <= j <= i :: nodes[j] == old(nodes[j])
      ensures Marked(t, i + 1, ms, dones, accounts, made)
      ensures err.None? ==> Write in t
      ensures Write in t ==> Identified()
      decreases |builders| - i, 0, 0
    {
      if i < |builders| - 1 {
        Said(r, ms, i + 1);
        err, t, made := Mutate(mutators[i + 1].value, builders[i + 1].mutation, i + 1, 0, r, ms, dones, accounts);
        SuccessWrites(r, i + 1);
      } else {
        err, t := WriteBatch(ms, dones, accounts);
        made := {};
      }
    }

    /** What the last mutator calls. */
    method WriteBatch(ghost ms: seq<Mutation>, ghost dones: map<MutationBox, bool>, ghost accounts: map<MutationBox, Entity?>)
      returns (err: Option<Failure>, ghost t: seq<Event>)
      requires Shape() && |ms| == |builders| && Before(dones, accounts)
      requires Filled(|builders|, ms) && Pointing(|builders|)
      modifies this`written, specs
      ensures Outcome(t, err) == if s.database.Some? then Outcome([], s.database) else Outcome([Write], None)
      ensures written == old(written) + if Write in t then [BatchOf(s, ms)] else []
      ensures Marked(t, |builders|, ms, dones, accounts, {})
      ensures Write in t ==> Identified()
    {
      err := BatchCreate(ms);
      t := if err.None? then [Write] else [];
      PassedOne(Write);
      NothingMarked(t, |builders|, ms, dones, accounts);
    }

    /** Marks builder i's mutation and node with the id the batch write put on its spec. */
    method Finish(i: nat, m: MutationBox, node: Entity, ghost t: seq<Event>, ghost ms: seq<Mutation>,
                  ghost dones: map<MutationBox, bool>, ghost accounts: map<MutationBox, Entity?>, ghost made: set<Entity>)
      requires Shape() && i < |builders| == |ms| && m == Arrived(i) && MarkedBy(t, i + 1, ms, dones, accounts, made)
      requires specs[i].Some? && specs[i].value.id == s.ids(i)
      requires nodes[i] == node && node !in made && node.slots == CreatedSlots(ms[i])
      modifies node`slots, m`account, m`done
      ensures MarkedBy([Checked(i)] + t + [Done(i)], i, ms, dones, accounts, made + {node})
    {
      ghost var u := [Checked(i)] + t + [Done(i)];
      MarksGrow(i, m, t, u);
      m.account := nodes[i];
      if specs[i].value.id.Some? {
        node.slots := node.slots[Id := Holds(IntV(specs[i].value.id.value))];
      }
      m.done := true;
    }

    lemma MarksGrow(i: nat, m: MutationBox, t: seq<Event>, u: seq<Event>)
      requires Shape() && i < |builders| && m == Arrived(i) && u == [Checked(i)] + t + [Done(i)]
      ensures forall j :: Done(j) in u <==> Done(j) in t || j == i
      ensures forall b | b in boxes :: Mark(u, i, b) == if b == m then Some(i) else Mark(t, i + 1, b)
    {
      assert forall j :: Done(j) in u <==> Done(j) in t || j == i;
      forall b | b in boxes ensures Mark(u, i, b) == if b == m then Some(i) else Mark(t, i + 1, b) { MarkAgrees(t, u, i + 1, b); }
    }

    /** How builder i's own mutator ends, given what the rest of the chain answered. */
    method Conclude(i: nat, m: MutationBox, node: Entity, err: Option<Failure>, ghost u: seq<Event>,
                    ghost ms: seq<Mutation>,
                    ghost dones: map<MutationBox, bool>, ghost accounts: map<MutationBox, Entity?>, ghost before: set<Entity>)
      returns (ghost t: seq<Event>, ghost made: set<Entity>)
      requires Shape() && i < |builders| == |ms| && m == Arrived(i) && Marked(u, i + 1, ms, dones, accounts, before)
      requires err.None? ==> Identified()
      requires nodes[i] == node && node !in before && node.slots == CreatedSlots(ms[i])
      modifies node`slots, m`account, m`done
      ensures Outcome(t, err) == AfterCheck(i, Outcome(u, err)) && before <= made <= before + {node}
      ensures Marked(t, i, ms, dones, accounts, made)
    {
      t, made := [Checked(i)] + u, before;
      PointedGrows(u, i, Checked(i), [Done(i)]);
      if err.Some? {
        MarkedFrom(u, i, ms, dones, accounts, made);
        return;
      }
      assert Open(Marks, 0);
      Finish(i, m, node, u, ms, dones, accounts, made);
      t, made := [Checked(i)] + u + [Done(i)], made + {node};
    }

    /** The body of builder i's own mutator. */
    method RunCore(i: nat, m: MutationBox, ghost r: Run<MutationBox>, ghost ms: seq<Mutation>,
                   ghost dones: map<MutationBox, bool>,
                   ghost accounts: map<MutationBox, Entity?>)
      returns (err: Option<Failure>, ghost t: seq<Event>, ghost made: set<Entity>)
      requires Shape() && Stored() && Scripted(r, ms) && Before(dones, accounts)
      requires i < |builders| && m == Arrived(i) && Filled(i, ms) && Pointing(i)
      modifies this`written, specs, nodes, makers`mutation, boxes`account, boxes`done
      ensures Outcome(t, err) == Walk(r, i, |builders[i].hooks|) && fresh(made)
      ensures written == old(written) + if Write in t then [BatchOf(s, ms)] else []
      ensures forall j | 0 <= j < i :: nodes[j] == old(nodes[j])
      ensures Marked(t, i, ms, dones, accounts, made)
      ensures Write in t ==> Identified()
      decreases |builders| - i, 0, 3
    {
      t, made := [], {};
      Said(r, ms, i);
      err := builders[i].RunCheck(s.valid);
      if err.Some? {
        NothingMarked(t, i, ms, dones, accounts);
        return;
      }
      err, t, made := RunChecked(i, m, r, ms, dones, accounts);
      CoreWalk(r, i);
    }

    /** Fills the slots of builder i and calls what comes next. */
    method Descend(i: nat, m: MutationBox, ghost r: Run<MutationBox>, ghost ms: seq<Mutation>,
                   ghost dones: map<MutationBox, bool>,
                   ghost accounts: map<MutationBox, Entity?>)
      returns (node: Entity, err: Option<Failure>, ghost u: seq<Event>, ghost made: set<Entity>)
      requires Shape() && Stored() && Scripted(r, ms) && Before(dones, accounts)
      requires i < |builders| && m == Arrived(i) && Filled(i, ms) && Pointing(i)
      modifies this`written, specs, nodes, makers`mutation, boxes`account, boxes`done
      ensures fresh(node) && nodes[i] == node && node.slots == CreatedSlots(ms[i])
      ensures Outcome(u, err) == Next(r, i) && fresh(made) && node !in made
      ensures written == old(written) + if Write in u then [BatchOf(s, ms)] else []
      ensures forall j | 0 <= j < i :: nodes[j] == old(nodes[j])
      ensures Marked(u, i + 1, ms, dones, accounts, made)
      ensures err.None? ==> Write in u
      ensures Write in u ==> Identified()
      decreases |builders| - i, 0, 1
    {
      node := FillSlots(i, m, r, ms);
      err, u, made := CallNext(i, r, ms, dones, accounts);
    }

    method RunChecked(i: nat, m: MutationBox, ghost r: Run<MutationBox>, ghost ms: seq<Mutation>,
                      ghost dones: map<MutationBox, bool>,
                      ghost accounts: map<MutationBox, Entity?>)
      returns (err: Option<Failure>, ghost t: seq<Event>, ghost made: set<Entity>)
      requires Shape() && Stored() && Scripted(r, ms) && Before(dones, accounts)
      requires i < |builders| && m == Arrived(i) && Filled(i, ms) && Pointing(i)
      modifies this`written, specs, nodes, makers`mutation, boxes`account, boxes`done
      ensures Outcome(t, err) == AfterCheck(i, Next(r, i)) && fresh(made)
      ensures written == old(written) + if Write in t then [BatchOf(s, ms)] else []
      ensures forall j | 0 <= j < i :: nodes[j] == old(nodes[j])
      ensures Marked(t, i, ms, dones, accounts, made)
      ensures Write in t ==> Identified()
      decreases |builders| - i, 0, 2
    {
      var node;
      ghost var u;
      node, err, u, made := Descend(i, m, r, ms, dones, accounts);
      t, made := Conclude(i, m, node, err, u, ms, dones, accounts, made);
    }

    method Mutate(mut: Mutator, m: MutationBox, ghost i: nat, ghost k: nat, ghost r: Run<MutationBox>,
                  ghost ms: seq<Mutation>,
                  ghost dones: map<MutationBox, bool>, ghost accounts: map<MutationBox, Entity?>)
      returns (err: Option<Failure>, ghost t: seq<Event>, ghost made: set<Entity>)
      requires Shape() && Stored() && Scripted(r, ms) && Before(dones, accounts)
      requires i < |builders| && k <= |builders[i].hooks| && Filled(i, ms)
      requires mut == Wrapped(i, builders[i].hooks, k) && m == Handed(builders[i].hooks, k, Pointer(i, i))
      requires Pointing(i)
      modifies this`written, specs, nodes, makers`mutation, boxes`account, boxes`done
      ensures Outcome(t, err) == Walk(r, i, k) && fresh(made)
      ensures written == old(written) + if Write in t then [BatchOf(s, ms)] else []
      ensures forall j | 0 <= j < i :: nodes[j] == old(nodes[j])
      ensures Marked(t, i, ms, dones, accounts, made)
      ensures Write in t ==> Identified()
      decreases |builders| - i, 1, |builders[i].hooks| - k, 1
    {
      match mut
      case Core(b) =>
        err, t, made := RunCore(b, m, r, ms, dones, accounts);
      case Hooked(hook, inner) =>
        if hook.RejectBefore? {
          t, made := [Enter(i, k)], {};
          PassedOne(Enter(i, k));
          NothingMarked(t, i, ms, dones, accounts);
          return Some(FromHook(hook.name)), t, made;
        }
        err, t, made := CallInner(hook, inner, m, i, k, r, ms, dones, accounts);
    }

    /** A hook that calls the mutator it wraps. */
    method CallInner(hook: Hook<MutationBox>, inner: Mutator, m: MutationBox, ghost i: nat, ghost k: nat,
                     ghost r: Run<MutationBox>,
                     ghost ms: seq<Mutation>, ghost dones: map<MutationBox, bool>, ghost accounts: map<MutationBox, Entity?>)
      returns (err: Option<Failure>, ghost t: seq<Event>, ghost made: set<Entity>)
      requires Shape() && Stored() && Scripted(r, ms) && Before(dones, accounts)
      requires i < |builders| && k < |builders[i].hooks| && Filled(i, ms)
      requires hook == builders[i].hooks[k] && !hook.RejectBefore? && inner == Wrapped(i, builders[i].hooks, k + 1)
      requires m == Handed(builders[i].hooks, k, Pointer(i, i)) && Pointing(i)
      modifies this`written, specs, nodes, makers`mutation, boxes`account, boxes`done
      ensures Outcome(t, err) == AfterHook(i, k, hook, Walk(r, i, k + 1)) && fresh(made)
      ensures written == old(written) + if Write in t then [BatchOf(s, ms)] else []
      ensures forall j | 0 <= j < i :: nodes[j] == old(nodes[j])
      ensures Marked(t, i, ms, dones, accounts, made)
      ensures Write in t ==> Identified()
      decreases |builders| - i, 1, |builders[i].hooks| - k, 0
    {
      ghost var u;
      err, u, made := Mutate(inner, if hook.Replace? then hook.with else m, i, k + 1, r, ms, dones, accounts);
      t := [Enter(i, k)] + u + [Leave(i, k)];
      PointedGrows(u, i, Enter(i, k), [Leave(i, k)]);
      MarkedAgrees(u, t, i, ms, dones, accounts, made);
      if hook.RejectAfter? && err.None? {
        err := Some(FromHook(hook.name));
      }
    }

    lemma {:induction false} MarkFirst(t: seq<Event>, i: nat, j: nat)
      requires Shape() && i <= j < |builders| && Done(j) in t
      requires forall l | i <= l < j :: Arrived(l) != Arrived(j)
      ensures Mark(t, i, Arrived(j)) == Some(j)
      decreases j - i
    {
      if i < j { MarkFirst(t, i + 1, j); }
    }

    lemma {:induction false} MarkSome(t: seq<Event>, i: nat, j: nat)
      requires Shape() && i <= j < |builders| && Done(j) in t
      ensures Mark(t, i, Arrived(j)).Some?
      decreases j - i
    {
      if i < j { MarkSome(t, i + 1, j); }
    }

    ghost predicate AllMarked(ms: seq<Mutation>)
      requires Shape() && |ms| == |builders|
      reads nodes, nodes[..], boxes`done, boxes`account
    {
      forall j | 0 <= j < |builders| ::
        && nodes[j] != null && nodes[j].slots == Returned(ms[j], s.ids(j)) && Arrived(j).done
        && Arrived(j).account == nodes[First(j)]
    }

    /** What the marks of a whole run come to. */
    lemma {:induction false} MarksOf(t: seq<Event>, r: Run<MutationBox>, ms: seq<Mutation>, dones: map<MutationBox, bool>,
                accounts: map<MutationBox, Entity?>, made: set<Entity>)
      requires Shape() && |builders| > 0 && Scripted(r, ms) && Marked(t, 0, ms, dones, accounts, made)
      requires Walk(r, 0, 0).trace == t
      ensures Write !in t ==> forall b | b in boxes ::
                b in dones && b in accounts && b.done == dones[b] && b.account == accounts[b]
      ensures Walk(r, 0, 0).error.None? ==> AllMarked(ms)
      ensures Pointed(t, 0)
    {
      assert Open(Marks, 0);
      DoneTogether(r);
      if Write !in t {
        forall b | b in boxes ensures Mark(t, 0, b).None? { }
      }
      if Walk(r, 0, 0).error.None? {
        forall j | 0 <= j < |builders|
          ensures nodes[j] != null && nodes[j].slots == Returned(ms[j], s.ids(j)) && Arrived(j).done
        {
          assert Done(j) in t;
          MarkSome(t, 0, j);
        }
        forall j | 0 <= j < |builders| ensures Arrived(j).account == nodes[First(j)] {
          assert Done(First(j)) in t;
          MarkFirst(t, 0, First(j));
        }
      }
    }

    /** Builder j hands on another mutation than its own. */
    ghost predicate Replaces(j: nat)
      requires j < |builders|
    {
      LastReplace(builders[j].hooks, |builders[j].hooks|) >= 0
    }

    /** The rows of ms pass check, those aside that a hook handed on in place of another mutation. */
    ghost predicate AllChecked(ms: seq<Mutation>)
      requires |ms| == |builders|
    {
      forall j | 0 <= j < |builders| && !Replaces(j) :: Check(s.valid, ms[j].fields).None?
    }

    /** The batch is written exactly when the database accepts, all hooks let through, and the mutation that each
        builder points to when its turn comes passes check. */
    lemma {:induction false} WritesExactly(r: Run<MutationBox>, ms: seq<Mutation>)
      requires Shape() && |builders| > 0 && Scripted(r, ms)
      ensures Write in Walk(r, 0, 0).trace <==>
        && s.database.None?
        && forall j | 0 <= j < |builders| :: LetThrough(builders[j].hooks, 0) && Check(s.valid, Pointer(j, j).m.fields).None?
    {
      WritesOnce(r, 0, 0);
      CountIn(Walk(r, 0, 0).trace, Write);
      AllPassEach(r);
      forall j | 0 <= j < |builders|
        ensures r.hooks[j] == builders[j].hooks && r.checks[j] == Check(s.valid, Pointer(j, j).m.fields)
      {
        Said(r, ms, j);
      }
    }

    /** A row of a written batch passes check unless a hook of its builder handed it on in place of one that does. */
    lemma {:induction false} RowsChecked(r: Run<MutationBox>, ms: seq<Mutation>)
      requires Shape() && |builders| > 0 && Scripted(r, ms) && Write in Walk(r, 0, 0).trace
      ensures AllChecked(ms)
    {
      WritesExactly(r, ms);
      forall j | 0 <= j < |builders| && !Replaces(j) ensures Check(s.valid, ms[j].fields).None? {
        Said(r, ms, j);
        HandedLast(builders[j].hooks, |builders[j].hooks|, Pointer(j, j));
      }
    }

    /** A written batch holds a row that fails check exactly when everything gets through and the last replacing hook
        of some builder hands on a mutation that fails it. */
    lemma {:induction false} UncheckedRows(r: Run<MutationBox>, ms: seq<Mutation>)
      requires Shape() && |builders| > 0 && Scripted(r, ms)
      ensures Write in Walk(r, 0, 0).trace && (exists j | 0 <= j < |builders| :: Check(s.valid, ms[j].fields).Some?) <==>
        && s.database.None?
        && (forall j | 0 <= j < |builders| :: LetThrough(builders[j].hooks, 0) && Check(s.valid, Pointer(j, j).m.fields).None?)
        && exists j | 0 <= j < |builders| :: Replaces(j) && Check(s.valid, Arrived(j).m.fields).Some?
    {
      WritesExactly(r, ms);
      forall j | 0 <= j < |builders| ensures ms[j] == Arrived(j).m { Said(r, ms, j); }
      if Write in Walk(r, 0, 0).trace { RowsChecked(r, ms); }
    }

    /** When no builder stands twice, each points to its own mutation until its turn comes. */
    lemma {:induction false} PointsToOwn(i: nat, j: nat)
      requires Shape() && i <= j < |builders|
      requires forall a, b | 0 <= a < b < |builders| :: builders[a] != builders[b]
      ensures Pointer(i, j) == start[j]
    {
      if i > 0 { PointsToOwn(i - 1, j); }
    }

    /** What a builder's mutation reads as its id afterwards: the id of the first builder that was handed the mutation
        which reached the last place of this one. */
    lemma {:induction false} ReadsId(nodes: seq<Entity>, ms: seq<Mutation>, t: seq<Event>, j: nat)
      requires Shape() && |ms| == |builders| && Complete(nodes, ms) && j < |builders|
      requires Pointed(t, 0) && Passed(t) == |builders|
      ensures var f := First(LastPlace(|builders|, j));
        && builders[j].mutation.account == nodes[f] && builders[j].mutation.done
        && nodes[f].slots == Returned(ms[f], s.ids(f))
    {
      assert Open(Pointers, 0);
      PointerAt(|builders|, j);
    }

    /** When the database gives every spec an id of its own, a builder's mutation reads the id of its own spec exactly
        when no earlier builder was handed the same mutation, nor did the same builder receive another one later. */
    lemma {:induction false} ReadsOwnId(nodes: seq<Entity>, ms: seq<Mutation>, t: seq<Event>, j: nat)
      requires Shape() && |ms| == |builders| && Complete(nodes, ms) && j < |builders|
      requires Pointed(t, 0) && Passed(t) == |builders|
      requires forall l | 0 <= l < |builders| :: s.ids(l).Some?
      requires forall k, l | 0 <= k < l < |builders| :: s.ids(k) != s.ids(l)
      ensures builders[j].mutation.account != null && Id in builders[j].mutation.account.slots
      ensures builders[j].mutation.account.slots[Id] == Holds(IntV(s.ids(j).value))
         <==> IsFirst(j) && Arrived(LastPlace(|builders|, j)) == Arrived(j)
    {
      ReadsId(nodes, ms, t, j);
      var l := LastPlace(|builders|, j);
      if First(l) == j { assert IsFirst(j); }
      if IsFirst(j) && Arrived(l) == Arrived(j) { SameFirst(l, j); }
    }

    lemma {:induction false} SameFirst(l: nat, j: nat)
      requires Shape() && l < |builders| && j < |builders| && Arrived(l) == Arrived(j)
      ensures First(l) == First(j)
    {
    }

    /** When no builder stands twice, what arrives is the mutation of its last replacing hook, or else its own. */
    lemma {:induction false} ArrivesAs(j: nat)
      requires Shape() && j < |builders|
      requires forall a, b | 0 <= a < b < |builders| :: builders[a] != builders[b]
      ensures LastPlace(|builders|, j) == j
      ensures var hooks := builders[j].hooks;
        var k := LastReplace(hooks, |hooks|); Arrived(j) == if k < 0 then start[j] else hooks[k].with
    {
      PointsToOwn(j, j);
      HandedLast(builders[j].hooks, |builders[j].hooks|, Pointer(j, j));
    }

    /** Row j of the batch stores and links what the mutation says that reached builder j. */
    ghost predicate RowsStored(batch: seq<CreateSpec>)
      requires Shape()
      reads boxes`m
    {
      && |batch| == |builders|
      && forall j | 0 <= j < |builders| ::
           (Inverse(s.json) ==> Stores(s.json, Arrived(j).m, batch[j])) && Links(Arrived(j).m, s.join, batch[j].edges)
    }

    lemma RowsMean(r: Run<MutationBox>, ms: seq<Mutation>)
      requires Shape() && Scripted(r, ms)
      ensures RowsStored(BatchOf(s, ms))
    {
      forall j | 0 <= j < |builders|
        ensures var spec := BatchOf(s, ms)[j];
          (Inverse(s.json) ==> Stores(s.json, Arrived(j).m, spec)) && Links(Arrived(j).m, s.join, spec.edges)
      {
        Said(r, ms, j);
        SpecMeans(s.json, ms[j], s.join);
      }
    }

    /** The returned accounts say what the mutations that reached their builders say, with the ids the database gave. */
    ghost predicate NodesTold(nodes: seq<Entity>)
      requires Shape()
      reads nodes, boxes`m
    {
      |nodes| == |builders| && forall j | 0 <= j < |nodes| :: Tells(Arrived(j).m, s.ids(j), nodes[j].slots)
    }

    lemma NodesMean(r: Run<MutationBox>, ms: seq<Mutation>, nodes: seq<Entity>)
      requires Shape() && Scripted(r, ms) && Complete(nodes, ms)
      ensures NodesTold(nodes)
    {
      forall j | 0 <= j < |nodes| ensures Tells(Arrived(j).m, s.ids(j), nodes[j].slots) {
        Said(r, ms, j);
        ReturnedTells(ms[j], s.ids(j));
      }
    }

    /** So reading row j back, through any columns, gives the returned account exactly when the defaults of the columns
        that the mutation says nothing of read as zero values. */
    lemma {:induction false} RowReadsBack(batch: seq<CreateSpec>, nodes: seq<Entity>, j: nat, id: int, defaults: Field -> Cell,
                       extra: string -> Cell, columns: seq<Column>, values: seq<Holder>)
      requires Shape() && j < |builders| && RowsStored(batch) && NodesTold(nodes) && Inverse(s.json)
      requires s.ids(j) == Some(id) && Sound(s.json, defaults)
      requires Scanned(columns, StoredRow(batch[j], id, defaults, extra), values)
      ensures var q := AssignAll(s.json, columns, values, Progress(BlankSlots, map[], None));
        && q.error.None?
        && ((forall f | Known(f) in columns :: q.slots[f] == nodes[j].slots[f]) <==>
            (forall f | Known(f) in columns && !Told(Arrived(j).m, f) :: Read(s.json, f, defaults(f)) == ZeroSlot(f)))
    {
      assert Stores(s.json, Arrived(j).m, batch[j]);
      var q := AssignAll(s.json, columns, values, Progress(BlankSlots, map[], None));
      forall f | Known(f) in columns
        ensures q.slots[f] == nodes[j].slots[f] <==> Told(Arrived(j).m, f) || Read(s.json, f, defaults(f)) == ZeroSlot(f)
      {
        assert q.slots[f] == SaidOr(Arrived(j).m, Some(id), f, Read(s.json, f, defaults(f)));
      }
    }

    /** The returned slice. */
    method Nodes(ghost ms: seq<Mutation>) returns (all: seq<Entity>)
      requires Shape() && |ms| == |builders| && AllMarked(ms)
      ensures Complete(all, ms)
    {
      all := [];
      for j := 0 to |builders|
        invariant |all| == j && forall l | 0 <= l < j :: all[l] == nodes[l]
      {
        all := all + [nodes[j]];
      }
    }

    /** Every spec has the id the database gave it. */
    ghost predicate Identified()
      requires Shape()
      reads specs
    {
      forall j | 0 <= j < |builders| :: specs[j].Some? && specs[j].value.id == s.ids(j)
    }
  }

  /** No write, no mutation done; success, all of them. */
  lemma {:induction false} DoneTogether<M>(r: Run<M>)
    requires r.Valid() && |r.hooks| > 0
    ensures Write !in Walk(r, 0, 0).trace ==> forall j :: Done(j) !in Walk(r, 0, 0).trace
    ensures Walk(r, 0, 0).error.None? ==> forall j | 0 <= j < |r.hooks| :: Done(j) in Walk(r, 0, 0).trace
  {
    var t := Walk(r, 0, 0).trace;
    WritesOnce(r, 0, 0);
    CountIn(t, Write);
    forall j | 0 <= j < |r.hooks|
      ensures Done(j) in t <==> Write in t && BackAfter(r, j)
    {
      DoneExactly(r, 0, 0, j);
      CountIn(t, Done(j));
    }
    forall j | j >= |r.hooks| ensures Done(j) !in t { NoStranger(r, 0, 0, j); }
  }

  lemma {:induction false} SuccessWrites<M>(r: Run<M>, i: nat)
    requires r.Valid() && i < |r.hooks|
    ensures Walk(r, i, 0).error.None? ==> Write in Walk(r, i, 0).trace
  {
    WritesOnce(r, i, 0);
    CountIn(Walk(r, i, 0).trace, Write);
  }

  // ----- Save -----

  function WithDefaults(d: Defaults, m: Mutation): Mutation { m.(fields := Defaulted(d, m.fields, DEFAULTED).0) }

  lemma DefaultsTwice(d: Defaults, m: Mutation)
    ensures WithDefaults(d, WithDefaults(d, m)) == WithDefaults(d, m)
  {
    DefaultsOnly(d, m.fields, DEFAULTED);
  }

  lemma DefaultsTyped(d: Defaults, m: Mutation)
    requires ValidDefaults(d) && WellTyped(m)
    ensures WellTyped(WithDefaults(d, m))
  {
    DefaultsOnly(d, m.fields, DEFAULTED);
    forall f | f in DEFAULTED ensures HasBlock(f) { DefaultedHasBlock(f); }
    AddedTyped(d, m, DEFAULTED, WithDefaults(d, m));
  }

  lemma DefaultedHasBlock(f: Field)
    requires f in DEFAULTED
    ensures HasBlock(f)
  {
  }

  lemma AddedTyped(d: Defaults, m: Mutation, order: seq<Field>, n: Mutation)
    requires ValidDefaults(d) && WellTyped(m) && forall f | f in order :: HasBlock(f)
    requires forall f | f in m.fields :: f in n.fields && n.fields[f] == m.fields[f]
    requires forall f | f in n.fields && f !in m.fields :: f in order && f in d.values && n.fields[f] == d.values[f]
    ensures WellTyped(n)
  {
  }

  class AccountCreateBulk {
    var builders: seq<AccountCreate>
    var err: Option<Failure>

    constructor (builders: seq<AccountCreate>, err: Option<Failure>)
      ensures this.builders == builders && this.err == err
    {
      this.builders, this.err := builders, err;
    }

    /** The hooks are wrapped around builder i's own mutator from the last to the first. */
    static method Wrap(i: nat, hooks: seq<Hook<MutationBox>>) returns (mut: Mutator)
      ensures mut == Wrapped(i, hooks, 0)
    {
      mut := Core(i);
      var k := |hooks|;
      while k > 0
        invariant 0 <= k <= |hooks| && mut == Wrapped(i, hooks, k)
      {
        k := k - 1;
        mut := Hooked(hooks[k], mut);
      }
    }

    /** Before any mutator is called, every builder has its defaults, whatever their error, and every mutator is stored. */
    static method SetUp(run: BulkRun)
      requires run.Shape() && forall j | 0 <= j < |run.builders| :: run.builders[j].mutation == run.start[j]
      modifies run.mutators, run.boxes`m
      ensures run.Stored()
      ensures forall b | b in run.boxes :: b.m == if b in run.start then WithDefaults(run.s.defaults, old(b.m)) else old(b.m)
    {
      for i := 0 to |run.builders|
        invariant forall j | 0 <= j < i :: run.mutators[j] == Some(Wrapped(j, run.builders[j].hooks, 0))
        invariant forall b | b in run.boxes ::
          b.m == if b in run.start[..i] then WithDefaults(run.s.defaults, old(b.m)) else old(b.m)
      {
        var builder := run.builders[i];
        DefaultsTwice(run.s.defaults, old(builder.mutation.m));
        assert run.start[..i + 1] == run.start[..i] + [builder.mutation];
        var _ := builder.SetDefaults(run.s.defaults);
        var mut := Wrap(i, builder.hooks);
        run.mutators[i] := Some(mut);
      }
      assert run.start[..|run.start|] == run.start;
    }

    /** What the mutations hold when the chain starts. */
    static ghost method Script(run: BulkRun) returns (r: Run<MutationBox>, ms: seq<Mutation>)
      requires run.Shape() && forall b | b in run.boxes :: WellTyped(b.m)
      ensures run.Scripted(r, ms)
    {
      var n := |run.builders|;
      r := Run(seq(n, j requires 0 <= j < n => run.builders[j].hooks),
               seq(n, j requires 0 <= j < n reads run.boxes => Check(run.s.valid, run.Pointer(j, j).m.fields)),
               run.s.database);
      ms := seq(n, j requires 0 <= j < n reads run.boxes => run.Arrived(j).m);
    }

    /** Calls the first mutator. */
    static method Chain(run: BulkRun, ghost r: Run<MutationBox>, ghost ms: seq<Mutation>)
      returns (failure: Option<Failure>, ghost t: seq<Event>)
      requires run.Shape() && run.Stored() && run.Pointing(0) && run.Scripted(r, ms) && |run.builders| > 0
      modifies run`written, run.specs, run.nodes, run.makers`mutation, run.boxes`account, run.boxes`done
      ensures Outcome(t, failure) == Walk(r, 0, 0)
      ensures run.written == old(run.written) + if Write in t then [BatchOf(run.s, ms)] else []
      ensures failure.None? ==> run.AllMarked(ms)
      ensures run.Pointed(t, 0) && (Write in t || failure.None? ==> Passed(t) == |run.builders|)
      ensures Write !in t ==> forall b | b in run.boxes :: b.done == old(b.done) && b.account == old(b.account)
    {
      ghost var dones := map b | b in run.boxes :: b.done;
      ghost var accounts := map b | b in run.boxes :: b.account;
      ghost var made;
      failure, t, made := run.Mutate(run.mutators[0].value, run.builders[0].mutation, 0, 0, r, ms, dones, accounts);
      run.MarksOf(t, r, ms, dones, accounts, made);
      WritePassed(r, 0, 0);
      SuccessWrites(r, 0);
    }

    static method Start(run: BulkRun)
      returns (nodes: seq<Entity>, failure: Option<Failure>, ghost r: Run<MutationBox>, ghost ms: seq<Mutation>, ghost t: seq<Event>)
      requires run.Shape() && run.Stored() && run.Pointing(0) && run.written == []
      requires forall b | b in run.boxes :: WellTyped(b.m)
      modifies run`written, run.specs, run.nodes, run.makers`mutation, run.boxes`account, run.boxes`done
      ensures run.Scripted(r, ms)
      ensures if |run.builders| == 0 then t == [] && failure.None? else Outcome(t, failure) == Walk(r, 0, 0)
      ensures run.written == if Write in t then [BatchOf(run.s, ms)] else []
      ensures Write in t ==> run.AllChecked(ms)
      ensures failure.None? ==> run.Complete(nodes, ms)
      ensures run.Pointed(t, 0) && (Write in t || failure.None? ==> Passed(t) == |run.builders|)
      ensures Write !in t ==> forall b | b in run.boxes :: b.done == old(b.done) && b.account == old(b.account)
    {
      r, ms := Script(run);
      nodes, failure, t := [], None, [];
      if |run.builders| > 0 {
        failure, t := Chain(run, r, ms);
        if Write in t { run.RowsChecked(r, ms); }
        if failure.Some? {
          return;
        }
        nodes := run.Nodes(ms);
      }
    }

    static method Launch(run: BulkRun)
      returns (nodes: seq<Entity>, failure: Option<Failure>, ghost r: Run<MutationBox>, ghost ms: seq<Mutation>, ghost t: seq<Event>)
      requires run.Shape() && run.Pointing(0) && run.written == []
      requires ValidDefaults(run.s.defaults) && forall b | b in run.boxes :: WellTyped(b.m)
      modifies run`written, run.specs, run.nodes, run.mutators, run.makers`mutation, run.boxes
      ensures run.Scripted(r, ms)
      ensures if |run.builders| == 0 then t == [] && failure.None? else Outcome(t, failure) == Walk(r, 0, 0)
      ensures run.written == if Write in t then [BatchOf(run.s, ms)] else []
      ensures Write in t ==> run.AllChecked(ms)
      ensures failure.None? ==> run.Complete(nodes, ms)
      ensures run.Pointed(t, 0) && (Write in t || failure.None? ==> Passed(t) == |run.builders|)
      ensures Write !in t ==> forall b | b in run.boxes :: b.done == old(b.done) && b.account == old(b.account)
      ensures forall b | b in run.boxes :: b.m == if b in run.start then WithDefaults(run.s.defaults, old(b.m)) else old(b.m)
    {
      SetUp(run);
      forall b | b in run.boxes ensures WellTyped(b.m) { DefaultsTyped(run.s.defaults, old(b.m)); }
      nodes, failure, r, ms, t := Start(run);
    }

    /** The run of Save: what its chain of mutators does. */
    method SaveRun(s: Setting, ghost boxes: set<MutationBox>)
      returns (nodes: seq<Entity>, failure: Option<Failure>, written: seq<seq<CreateSpec>>,
               run: BulkRun?, ghost r: Run<MutationBox>, ghost ms: seq<Mutation>, ghost t: seq<Event>)
      requires ReplacedIn(builders, boxes) && forall b | b in builders :: b.mutation in boxes
      requires ValidDefaults(s.defaults) && forall b | b in boxes :: WellTyped(b.m)
      modifies (set b | b in builders)`mutation, boxes
      ensures if err.Some? then run == null && failure == err && nodes == [] && t == [] else run != null
      ensures err.Some? ==> forall b | b in builders :: b.mutation == old(b.mutation)
      ensures run != null ==>
                && run.Shape() && run.s == s && run.builders == builders && run.boxes == boxes && run.Scripted(r, ms)
                && (forall j | 0 <= j < |builders| :: run.start[j] == old(builders[j].mutation))
                && (if |builders| == 0 then t == [] && failure.None? else Outcome(t, failure) == Walk(r, 0, 0))
                && (failure.None? ==> run.Complete(nodes, ms))
                && (Write in t ==> run.AllChecked(ms))
                && run.Pointed(t, 0) && (Write in t || failure.None? ==> Passed(t) == |builders|)
      ensures written == if Write in t then [BatchOf(s, ms)] else []
      ensures Write !in t ==> forall b | b in boxes :: b.done == old(b.done) && b.account == old(b.account)
      ensures forall b | b in boxes ::
                b.m == if err.None? && (exists j | 0 <= j < |builders| :: old(builders[j].mutation) == b)
                       then WithDefaults(s.defaults, old(b.m)) else old(b.m)
    {
      if err.Some? {
        r := Run([], [], None);
        return [], err, [], null, r, [], [];
      }
      run := new BulkRun(s, builders, boxes);
      nodes, failure, r, ms, t := Launch(run);
      written := run.written;
    }

    /** Creates all accounts of the builders; nodes and written are the returned accounts and the batches that
        reached the database. */
    method Save(s: Setting, ghost boxes: set<MutationBox>)
      returns (nodes: seq<Entity>, failure: Option<Failure>, written: seq<seq<CreateSpec>>,
               run: BulkRun?, ghost r: Run<MutationBox>, ghost ms: seq<Mutation>, ghost t: seq<Event>)
      requires ReplacedIn(builders, boxes) && forall b | b in builders :: b.mutation in boxes
      requires ValidDefaults(s.defaults) && forall b | b in boxes :: WellTyped(b.m)
      modifies (set b | b in builders)`mutation, boxes
      ensures if err.Some? then run == null && failure == err && nodes == [] && t == [] else run != null
      ensures err.Some? ==> forall b | b in builders :: b.mutation == old(b.mutation)
      ensures run != null ==>
                && run.Shape() && run.s == s && run.builders == builders && run.boxes == boxes && run.Scripted(r, ms)
                && (forall j | 0 <= j < |builders| :: run.start[j] == old(builders[j].mutation))
                && (if |builders| == 0 then t == [] && failure.None? else Outcome(t, failure) == Walk(r, 0, 0))
                && (failure.None? ==> run.Complete(nodes, ms))
                && (Write in t ==> run.AllChecked(ms))
                && run.Pointed(t, 0) && (Write in t || failure.None? ==> Passed(t) == |builders|)
      ensures written == if Write in t then [BatchOf(s, ms)] else []
      ensures Write in t ==> |written| == 1 && run.RowsStored(written[0])
      ensures run != null && failure.None? ==> run.NodesTold(nodes)
      ensures Write !in t ==> forall b | b in boxes :: b.done == old(b.done) && b.account == old(b.account)
      ensures forall b | b in boxes ::
                b.m == if err.None? && (exists j | 0 <= j < |builders| :: old(builders[j].mutation) == b)
                       then WithDefaults(s.defaults, old(b.m)) else old(b.m)
    {
      nodes, failure, written, run, r, ms, t := SaveRun(s, boxes);
      if run != null {
        run.RowsMean(r, ms);
        if failure.None? { run.NodesMean(r, ms, nodes); }
      }
    }
  }
}
