/** Saving one account alone and in a bulk of one: where the two paths agree.  And two accounts in a bulk that share a
    mutation. */
module SingleSave {
  import opened Relational
  import opened AccountFields
  import opened EntityCodec
  import opened CreateChecks
  import opened BulkTraces
  import opened BulkCreate

  /** Save of a single builder: an error of the defaults is returned, and what is checked is what the hooks handed on. */
  function Alone(s: Setting, hooks: seq<Hook<MutationBox>>, m: Mutation, handed: Mutation): Outcome {
    var e := Defaulted(s.defaults, m.fields, DEFAULTED).1;
    if e.Some? then Outcome([], e) else Walk(Run([hooks], [Check(s.valid, handed.fields)], s.database), 0, 0)
  }

  /** The chain of a bulk of one builder, whose mutation held m before its defaults were set. */
  ghost predicate BulkOfOne(run: BulkRun, r: Run<MutationBox>, ms: seq<Mutation>, m: Mutation)
    reads run.boxes`m
  {
    run.Shape() && |run.builders| == 1 && run.Scripted(r, ms) && run.start[0].m == WithDefaults(run.s.defaults, m)
  }

  lemma {:induction false} OneWrite<M>(r: Run<M>)
    requires r.Valid() && |r.hooks| == 1
    ensures Write in Walk(r, 0, 0).trace <==> LetThrough(r.hooks[0], 0) && r.checks[0].None? && r.database.None?
    ensures Walk(r, 0, 0).error.None? <==> Write in Walk(r, 0, 0).trace && LetBack(r.hooks[0], 0)
  {
    WritesOnce(r, 0, 0);
    CountIn(Walk(r, 0, 0).trace, Write);
  }

  /** Dropping the error of the defaults loses nothing: without hooks that hand on another mutation, both paths write
      in the same cases and return without an error in the same cases. */
  lemma {:induction false} SameAlone(run: BulkRun, r: Run<MutationBox>, ms: seq<Mutation>, m: Mutation)
    requires BulkOfOne(run, r, ms, m) && ValidDefaults(run.s.defaults) && !run.Replaces(0)
    ensures var a, b := Alone(run.s, run.builders[0].hooks, m, ms[0]), Walk(r, 0, 0);
      (Write in a.trace <==> Write in b.trace) && (a.error.None? <==> b.error.None?)
  {
    var hooks := run.builders[0].hooks;
    run.Said(r, ms, 0);
    HandedLast(hooks, |hooks|, run.start[0]);
    OneWrite(r);
    OneWrite(Run([hooks], [Check(run.s.valid, ms[0].fields)], run.s.database));
    if Defaulted(run.s.defaults, m.fields, DEFAULTED).1.Some? {
      FailedDefaultsFailCheck(run.s.valid, run.s.defaults, m.fields);
    }
  }

  /** Saved alone, no row that fails check is ever written, whatever the hooks hand on. */
  lemma AloneChecks(s: Setting, hooks: seq<Hook<MutationBox>>, m: Mutation, handed: Mutation)
    ensures Write in Alone(s, hooks, m, handed).trace ==> Check(s.valid, handed.fields).None?
  {
    OneWrite(Run([hooks], [Check(s.valid, handed.fields)], s.database));
  }

  const BlankMutation := Mutation(map[], [], [], [], [], [])

  /** A bulk does write one: a complete account, and a hook that hands on an empty mutation. */
  method UncheckedRow(s: Setting, m: Mutation) returns (written: seq<seq<CreateSpec>>)
    requires s.database.None? && ValidDefaults(s.defaults) && WellTyped(m)
    requires (forall f, v :: s.valid(f, v)) && forall f | Required(f) :: f in m.fields
    ensures written == [BatchOf(s, [BlankMutation])] && Check(s.valid, BlankMutation.fields) == Some(Missing(CreatedAt))
  {
    var own := new MutationBox(m);
    var blank := new MutationBox(BlankMutation);
    var builder := new AccountCreate(own, [Replace(blank)]);
    var bulk := new AccountCreateBulk([builder], None);
    var nodes, failure, run;
    ghost var r, ms, t;
    nodes, failure, written, run, r, ms, t := bulk.SaveRun(s, {own, blank});
    ReplacedWritten(run, r, ms, own, blank);
    CompletePasses(s, m);
    BlankFails(s.valid);
  }

  lemma CompletePasses(s: Setting, m: Mutation)
    requires (forall f, v :: s.valid(f, v)) && forall f | Required(f) :: f in m.fields
    ensures Check(s.valid, WithDefaults(s.defaults, m).fields).None?
  {
    DefaultsOnly(s.defaults, m.fields, DEFAULTED);
    CheckExact(s.valid, WithDefaults(s.defaults, m).fields);
  }

  lemma BlankFails(valid: Validators)
    ensures Check(valid, BlankMutation.fields) == Some(Missing(CreatedAt))
  {
    assert StepFails(valid, map[], CHECK_STEPS[0]) == Some(Missing(CreatedAt));
  }

  lemma {:induction false} ReplacedWritten(run: BulkRun, r: Run<MutationBox>, ms: seq<Mutation>, own: MutationBox,
                                           blank: MutationBox)
    requires run.Shape() && run.Scripted(r, ms) && |run.builders| == 1 && run.builders[0].hooks == [Replace(blank)]
    requires run.start[0] == own
    ensures ms == [blank.m]
    ensures Write in Walk(r, 0, 0).trace <==> run.s.database.None? && Check(run.s.valid, own.m.fields).None?
  {
    run.Said(r, ms, 0);
    run.WritesExactly(r, ms);
    assert run.Pointer(0, 0) == run.start[0];
  }

  // ----- a mutation that two builders share -----

  /** Two builders whose hooks hand on the same mutation: both read the id of the first account. */
  method SharedMutation(s: Setting, m: Mutation) returns (first: Option<Slot>, second: Option<Slot>)
    requires s.database.None? && ValidDefaults(s.defaults) && s.ids(0).Some?
    requires WellTyped(m) && Check(s.valid, WithDefaults(s.defaults, m).fields).None?
    ensures first == second == Some(Holds(IntV(s.ids(0).value)))
  {
    var a := new MutationBox(m);
    var b := new MutationBox(m);
    var shared := new MutationBox(m);
    var one := new AccountCreate(a, [Replace(shared)]);
    var two := new AccountCreate(b, [Replace(shared)]);
    var bulk := new AccountCreateBulk([one, two], None);
    assert bulk.builders[0] == one && bulk.builders[1] == two;
    var node := SaveBoth(s, bulk, [a, b], shared);
    first := one.mutation.ID();
    second := two.mutation.ID();
  }

  method SaveBoth(s: Setting, bulk: AccountCreateBulk, own: seq<MutationBox>, shared: MutationBox)
    returns (node: Entity)
    requires |own| == 2 == |bulk.builders| && bulk.err.None? && bulk.builders[0] != bulk.builders[1]
    requires forall j | 0 <= j < 2 :: bulk.builders[j].mutation == own[j] && bulk.builders[j].hooks == [Replace(shared)]
    requires s.database.None? && ValidDefaults(s.defaults) && s.ids(0).Some? && WellTyped(shared.m)
    requires forall j | 0 <= j < 2 :: WellTyped(own[j].m) && Check(s.valid, WithDefaults(s.defaults, own[j].m).fields).None?
    modifies (set b | b in bulk.builders)`mutation, own, shared
    ensures bulk.builders == old(bulk.builders)
    ensures forall j | 0 <= j < 2 :: bulk.builders[j].mutation.account == node
    ensures Id in node.slots && node.slots[Id] == Holds(IntV(s.ids(0).value))
  {
    ghost var was := [own[0].m, own[1].m];
    var nodes, failure, written, run;
    ghost var r, ms, t;
    nodes, failure, written, run, r, ms, t := bulk.SaveRun(s, {own[0], own[1], shared});
    assert run.start[0] == own[0] && run.start[1] == own[1];
    assert own[0].m == WithDefaults(s.defaults, was[0]) && own[1].m == WithDefaults(s.defaults, was[1]);
    BothArrive(run, r, ms, shared);
    BothRead(run, nodes, ms, t);
    node := nodes[0];
  }

  lemma {:induction false} BothRead(run: BulkRun, nodes: seq<Entity>, ms: seq<Mutation>, t: seq<Event>)
    requires run.Shape() && |run.builders| == 2 == |ms| && run.Complete(nodes, ms) && run.s.ids(0).Some?
    requires run.Pointed(t, 0) && Passed(t) == 2
    requires run.First(run.LastPlace(2, 0)) == run.First(run.LastPlace(2, 1)) == 0
    ensures forall j | 0 <= j < 2 ::
      && run.builders[j].mutation.account == nodes[0] && Id in nodes[0].slots
      && nodes[0].slots[Id] == Holds(IntV(run.s.ids(0).value))
  {
    run.ReadsId(nodes, ms, t, 0);
    run.ReadsId(nodes, ms, t, 1);
  }

  lemma {:induction false} BothArrive(run: BulkRun, r: Run<MutationBox>, ms: seq<Mutation>, shared: MutationBox)
    requires run.Shape() && run.Scripted(r, ms) && |run.builders| == 2 && run.builders[0] != run.builders[1]
    requires run.builders[0].hooks == run.builders[1].hooks == [Replace(shared)] && run.s.database.None?
    requires Check(run.s.valid, run.start[0].m.fields).None? && Check(run.s.valid, run.start[1].m.fields).None?
    ensures Walk(r, 0, 0).error.None?
    ensures run.First(run.LastPlace(2, 0)) == run.First(run.LastPlace(2, 1)) == 0
  {
    run.PointsToOwn(0, 0);
    run.PointsToOwn(1, 1);
    run.Said(r, ms, 0);
    run.Said(r, ms, 1);
    WritesOnce(r, 0, 0);
    assert run.Arrived(0) == shared == run.Arrived(1);
  }
}
