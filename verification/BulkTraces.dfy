/** A bulk creation as a sequence of events: what the chain of mutators does, builder by builder and hook by hook. */
module BulkTraces {
  import opened Relational
  import opened CreateChecks

  /** What a hook does around the mutator it wraps; Replace hands it another mutation. */
  datatype Hook<M> = Pass | RejectBefore(name: string) | RejectAfter(name: string) | Replace(with: M)

  /** Enter and Leave frame the call a hook makes, Checked and Done the call of a builder's own mutator. */
  datatype Event = Enter(builder: nat, hook: nat) | Checked(builder: nat) | Write | Done(builder: nat) | Leave(builder: nat, hook: nat)

  /** The hooks of each builder, the outcome of its check, and the answer of the database. */
  datatype Run<M> = Run(hooks: seq<seq<Hook<M>>>, checks: seq<Option<Failure>>, database: Option<Failure>) {
    predicate Valid() { |hooks| == |checks| }
  }

  datatype Outcome = Outcome(trace: seq<Event>, error: Option<Failure>)

  /** The chain from hook k of builder i on; past the hooks comes the builder's own mutator, which calls the next
      builder's, and the last one the database. */
  function Walk<M>(r: Run<M>, i: nat, k: nat): Outcome
    requires r.Valid() && i < |r.hooks| && k <= |r.hooks[i]|
    decreases |r.hooks| - i, 1, |r.hooks[i]| - k
  {
    if k == |r.hooks[i]| then
      if r.checks[i].Some? then Outcome([], r.checks[i])
      else
        AfterCheck(i, Next(r, i))
    else
      match r.hooks[i][k]
      case RejectBefore(name) => Outcome([Enter(i, k)], Some(FromHook(name)))
      case hook => AfterHook(i, k, hook, Walk(r, i, k + 1))
  }

  function AfterHook<M>(i: nat, k: nat, hook: Hook<M>, next: Outcome): Outcome {
    Outcome([Enter(i, k)] + next.trace + [Leave(i, k)],
            if next.error.None? && hook.RejectAfter? then Some(FromHook(hook.name)) else next.error)
  }

  function AfterCheck(i: nat, next: Outcome): Outcome {
    Outcome([Checked(i)] + next.trace + (if next.error.None? then [Done(i)] else []), next.error)
  }

  lemma {:induction false} CoreWalk<M>(r: Run<M>, i: nat)
    requires r.Valid() && i < |r.hooks| && r.checks[i].None?
    ensures Walk(r, i, |r.hooks[i]|) == AfterCheck(i, Next(r, i))
  {
  }

  /** What builder i's own mutator calls once its check has passed. */
  function Next<M>(r: Run<M>, i: nat): Outcome
    requires r.Valid() && i < |r.hooks|
    decreases |r.hooks| - i, 0, 0
  {
    if i < |r.hooks| - 1 then Walk(r, i + 1, 0)
    else if r.database.Some? then Outcome([], r.database)
    else Outcome([Write], None)
  }

  // ----- when the chain gets through -----

  /** Hooks from k on let the mutation through to the builder's own mutator. */
  predicate LetThrough<M>(hooks: seq<Hook<M>>, k: nat)
    requires k <= |hooks|
  {
    forall h | k <= h < |hooks| :: !hooks[h].RejectBefore?
  }

  predicate LetBack<M>(hooks: seq<Hook<M>>, k: nat)
    requires k <= |hooks|
  {
    forall h | k <= h < |hooks| :: !hooks[h].RejectAfter?
  }

  /** Builders from i on, the first of them from hook k on, reach their own mutators and pass their checks. */
  ghost predicate AllPass<M>(r: Run<M>, i: nat, k: nat)
    requires r.Valid() && i < |r.hooks| && k <= |r.hooks[i]|
  {
    && LetThrough(r.hooks[i], k) && r.checks[i].None?
    && forall j | i < j < |r.hooks| :: LetThrough(r.hooks[j], 0) && r.checks[j].None?
  }

  lemma AllPassEach<M>(r: Run<M>)
    requires r.Valid() && |r.hooks| > 0
    ensures AllPass(r, 0, 0) <==> forall j | 0 <= j < |r.hooks| :: LetThrough(r.hooks[j], 0) && r.checks[j].None?
  {
  }

  ghost predicate AllBack<M>(r: Run<M>, i: nat, k: nat)
    requires r.Valid() && i < |r.hooks| && k <= |r.hooks[i]|
  {
    LetBack(r.hooks[i], k) && forall j | i < j < |r.hooks| :: LetBack(r.hooks[j], 0)
  }

  function Count(t: seq<Event>, e: Event): nat {
    if t == [] then 0 else Count(t[..|t| - 1], e) + if t[|t| - 1] == e then 1 else 0
  }

  lemma {:induction false} CountConcat(a: seq<Event>, b: seq<Event>, e: Event)
    ensures Count(a + b, e) == Count(a, e) + Count(b, e)
  {
    if b == [] {
      assert a + b == a;
    } else {
      assert (a + b)[..|a + b| - 1] == a + b[..|b| - 1];
      CountConcat(a, b[..|b| - 1], e);
    }
  }

  /** How many builders' checks have passed. */
  function Passed(t: seq<Event>): nat {
    if t == [] then 0 else Passed(t[..|t| - 1]) + if t[|t| - 1].Checked? then 1 else 0
  }

  lemma {:induction false} PassedConcat(a: seq<Event>, b: seq<Event>)
    ensures Passed(a + b) == Passed(a) + Passed(b)
  {
    if b == [] {
      assert a + b == a;
    } else {
      assert (a + b)[..|a + b| - 1] == a + b[..|b| - 1];
      PassedConcat(a, b[..|b| - 1]);
    }
  }

  lemma {:induction false} PassedOne(a: Event)
    ensures Passed([a]) == if a.Checked? then 1 else 0
  {
    assert [a][..0] == [];
  }

  lemma {:induction false} PassedFramed(a: Event, t: seq<Event>, b: seq<Event>)
    requires b == [] || (|b| == 1 && !b[0].Checked?)
    ensures Passed([a] + t + b) == (if a.Checked? then 1 else 0) + Passed(t)
  {
    PassedConcat([a] + t, b);
    PassedConcat([a], t);
    PassedOne(a);
    if b != [] { PassedOne(b[0]); }
  }

  /** When the batch is written, all checks from builder i on have passed. */
  lemma {:induction false} WritePassed<M>(r: Run<M>, i: nat, k: nat)
    requires r.Valid() && i < |r.hooks| && k <= |r.hooks[i]|
    ensures Passed(Walk(r, i, k).trace) <= |r.hooks| - i
    ensures Write in Walk(r, i, k).trace ==> Passed(Walk(r, i, k).trace) == |r.hooks| - i
    decreases |r.hooks| - i, |r.hooks[i]| - k
  {
    if k < |r.hooks[i]| {
      if r.hooks[i][k].RejectBefore? {
        PassedFramed(Enter(i, k), [], []);
      } else {
        WritePassed(r, i, k + 1);
        PassedFramed(Enter(i, k), Walk(r, i, k + 1).trace, [Leave(i, k)]);
      }
    } else if r.checks[i].None? {
      var next := Next(r, i);
      if i < |r.hooks| - 1 { WritePassed(r, i + 1, 0); } else { PassedFramed(Write, [], []); }
      PassedFramed(Checked(i), next.trace, if next.error.None? then [Done(i)] else []);
    }
  }

  lemma {:induction false} CountIn(t: seq<Event>, e: Event)
    ensures Count(t, e) > 0 <==> e in t
  {
    if t != [] {
      assert t == t[..|t| - 1] + [t[|t| - 1]];
      CountIn(t[..|t| - 1], e);
    }
  }

  lemma {:induction false} CountOne(a: Event, e: Event)
    ensures Count([a], e) == if a == e then 1 else 0
  {
    assert [a][..0] == [];
  }

  lemma {:induction false} CountFramed(a: Event, t: seq<Event>, b: seq<Event>, e: Event)
    ensures Count([a] + t + b, e) == (if a == e then 1 else 0) + Count(t, e) + Count(b, e)
  {
    CountConcat([a] + t, b, e);
    CountConcat([a], t, e);
    CountOne(a, e);
  }

  /** How often an event occurs in a step of the chain, given how often it occurs in what the step calls. */
  lemma CountStep<M>(r: Run<M>, i: nat, k: nat, e: Event)
    requires r.Valid() && i < |r.hooks| && k <= |r.hooks[i]|
    ensures var n := Count(Walk(r, i, k).trace, e);
      if k < |r.hooks[i]| then
        n == (if e == Enter(i, k) then 1 else 0)
             + if r.hooks[i][k].RejectBefore? then 0 else Count(Walk(r, i, k + 1).trace, e) + if e == Leave(i, k) then 1 else 0
      else if r.checks[i].Some? then n == 0
      else
        var next := Next(r, i);
        n == (if e == Checked(i) then 1 else 0) + Count(next.trace, e) + if next.error.None? && e == Done(i) then 1 else 0
  {
    if k < |r.hooks[i]| {
      if r.hooks[i][k].RejectBefore? {
        CountOne(Enter(i, k), e);
      } else {
        CountFramed(Enter(i, k), Walk(r, i, k + 1).trace, [Leave(i, k)], e);
        CountOne(Leave(i, k), e);
      }
    } else if r.checks[i].None? {
      var next := Next(r, i);
      CountFramed(Checked(i), next.trace, if next.error.None? then [Done(i)] else [], e);
      CountOne(Done(i), e);
    }
  }

  lemma {:induction false} LastNext<M>(r: Run<M>, i: nat)
    requires r.Valid() && i == |r.hooks| - 1
    ensures Next(r, i).error == r.database
    ensures Count(Next(r, i).trace, Write) == if r.database.None? then 1 else 0
    ensures forall j :: Count(Next(r, i).trace, Done(j)) == 0
  {
    CountOne(Write, Write);
    forall j { CountOne(Write, Done(j)); }
  }

  /** No hook of a builder after j rejects what comes back. */
  ghost predicate BackAfter<M>(r: Run<M>, j: nat) {
    forall l | j < l < |r.hooks| :: LetBack(r.hooks[l], 0)
  }

  lemma PassStep<M>(r: Run<M>, i: nat, k: nat)
    requires r.Valid() && i < |r.hooks| && k <= |r.hooks[i]|
    ensures AllPass(r, i, k) <==>
      if k < |r.hooks[i]| then !r.hooks[i][k].RejectBefore? && AllPass(r, i, k + 1)
      else r.checks[i].None? && (i < |r.hooks| - 1 ==> AllPass(r, i + 1, 0))
    ensures i < |r.hooks| - 1 ==> (AllBack(r, i + 1, 0) <==> BackAfter(r, i))
  {
  }

  /** The batch is written at most once, and exactly when every hook lets the mutation through, every check passes
      and the database accepts; the run succeeds exactly when moreover no hook rejects what comes back. */
  lemma {:induction false} WritesOnce<M>(r: Run<M>, i: nat, k: nat)
    requires r.Valid() && i < |r.hooks| && k <= |r.hooks[i]|
    ensures Count(Walk(r, i, k).trace, Write) == if AllPass(r, i, k) && r.database.None? then 1 else 0
    ensures Walk(r, i, k).error.None? <==> AllPass(r, i, k) && r.database.None? && AllBack(r, i, k)
    decreases |r.hooks| - i, |r.hooks[i]| - k
  {
    CountStep(r, i, k, Write);
    PassStep(r, i, k);
    if k < |r.hooks[i]| {
      if !r.hooks[i][k].RejectBefore? {
        WritesOnce(r, i, k + 1);
        assert AllBack(r, i, k) <==> !r.hooks[i][k].RejectAfter? && AllBack(r, i, k + 1);
      }
    } else if r.checks[i].None? {
      if i < |r.hooks| - 1 {
        WritesOnce(r, i + 1, 0);
        assert AllBack(r, i, k) <==> AllBack(r, i + 1, 0);
      } else {
        LastNext(r, i);
        assert AllBack(r, i, k);
      }
    }
  }

  /** A failing bulk creation leaves the database as it was, except when everything passed, the batch was written,
      and a hook then rejected the result. */
  lemma {:induction false} AllOrNothing<M>(r: Run<M>)
    requires r.Valid() && |r.hooks| > 0
    ensures (Walk(r, 0, 0).error.None? <==> Write in Walk(r, 0, 0).trace)
       <==> !(AllPass(r, 0, 0) && r.database.None? && !AllBack(r, 0, 0))
  {
    WritesOnce(r, 0, 0);
    CountIn(Walk(r, 0, 0).trace, Write);
  }

  /** Mutation j is marked done exactly when the batch was written and no hook of a later builder rejected its
      result; it is marked at most once. */
  lemma {:induction false} DoneExactly<M>(r: Run<M>, i: nat, k: nat, j: nat)
    requires r.Valid() && i < |r.hooks| && k <= |r.hooks[i]| && j < |r.hooks|
    ensures Count(Walk(r, i, k).trace, Done(j))
         == if i <= j && AllPass(r, i, k) && r.database.None? && BackAfter(r, j) then 1 else 0
    decreases |r.hooks| - i, |r.hooks[i]| - k
  {
    CountStep(r, i, k, Done(j));
    CountOne(Write, Done(j));
    PassStep(r, i, k);
    if k < |r.hooks[i]| {
      if !r.hooks[i][k].RejectBefore? { DoneExactly(r, i, k + 1, j); }
    } else if r.checks[i].None? {
      if i < |r.hooks| - 1 {
        DoneExactly(r, i + 1, 0, j);
        WritesOnce(r, i + 1, 0);
      } else {
        LastNext(r, i);
      }
    }
  }

  lemma {:induction false} NoStranger<M>(r: Run<M>, i: nat, k: nat, j: nat)
    requires r.Valid() && i < |r.hooks| && k <= |r.hooks[i]| && j >= |r.hooks|
    ensures Done(j) !in Walk(r, i, k).trace
    decreases |r.hooks| - i, |r.hooks[i]| - k
  {
    if k < |r.hooks[i]| {
      if !r.hooks[i][k].RejectBefore? { NoStranger(r, i, k + 1, j); }
    } else if i < |r.hooks| - 1 {
      NoStranger(r, i + 1, 0, j);
    }
  }

  // ----- the error -----

  /** Why a builder fails on the way down: its first rejecting hook, or else its check. */
  function BuilderFailure<M>(hooks: seq<Hook<M>>, check: Option<Failure>): Option<Failure> {
    if hooks == [] then check
    else if hooks[0].RejectBefore? then Some(FromHook(hooks[0].name))
    else BuilderFailure(hooks[1..], check)
  }

  lemma {:induction false} BuilderFails<M>(hooks: seq<Hook<M>>, check: Option<Failure>)
    ensures BuilderFailure(hooks, check).None? <==> LetThrough(hooks, 0) && check.None?
  {
    if hooks != [] {
      assert hooks == [hooks[0]] + hooks[1..];
      BuilderFails(hooks[1..], check);
      if LetThrough(hooks[1..], 0) && !hooks[0].RejectBefore? {
        forall h | 0 <= h < |hooks| ensures !hooks[h].RejectBefore? {
          if h > 0 { assert hooks[h] == hooks[1..][h - 1]; }
        }
      }
    }
  }

  /** When a builder fails on the way down, the error is that of the first that does. */
  lemma {:induction false} FirstFailureWins<M>(r: Run<M>, i: nat, k: nat, j: nat)
    requires r.Valid() && i <= j < |r.hooks| && k <= |r.hooks[i]|
    requires forall l | i <= l < j :: LetThrough(r.hooks[l], if l == i then k else 0) && r.checks[l].None?
    requires BuilderFailure(r.hooks[j][if j == i then k else 0..], r.checks[j]).Some?
    ensures Walk(r, i, k).error == BuilderFailure(r.hooks[j][if j == i then k else 0..], r.checks[j])
    ensures !AllPass(r, i, k)
    decreases |r.hooks| - i, |r.hooks[i]| - k
  {
    var hs := r.hooks[i];
    if k < |hs| {
      assert hs[k..][0] == hs[k] && hs[k..][1..] == hs[k + 1..];
      if !hs[k].RejectBefore? { FirstFailureWins(r, i, k + 1, j); }
    } else if i < j {
      assert r.hooks[j][0..] == r.hooks[j];
      FirstFailureWins(r, i + 1, 0, j);
    } else {
      assert hs[k..] == [];
    }
  }

  /** When all builders pass, a database that refuses the batch gives the error. */
  lemma {:induction false} DatabaseRefuses<M>(r: Run<M>, i: nat, k: nat)
    requires r.Valid() && i < |r.hooks| && k <= |r.hooks[i]|
    requires AllPass(r, i, k) && r.database.Some?
    ensures Walk(r, i, k).error == r.database
    decreases |r.hooks| - i, |r.hooks[i]| - k
  {
    PassStep(r, i, k);
    if k < |r.hooks[i]| {
      DatabaseRefuses(r, i, k + 1);
    } else if i < |r.hooks| - 1 {
      DatabaseRefuses(r, i + 1, 0);
    }
  }

  /** Once the batch is written, the rejecting hook that comes back first gives the error: the innermost one of the
      last builder that has any. */
  lemma {:induction false} LastRejectionWins<M>(r: Run<M>, i: nat, k: nat, j: nat, h: nat)
    requires r.Valid() && i <= j < |r.hooks| && k <= |r.hooks[i]| && (j == i ==> k <= h)
    requires AllPass(r, i, k) && r.database.None?
    requires h < |r.hooks[j]| && r.hooks[j][h].RejectAfter? && LetBack(r.hooks[j], h + 1) && BackAfter(r, j)
    ensures Walk(r, i, k).error == Some(FromHook(r.hooks[j][h].name))
    decreases |r.hooks| - i, |r.hooks[i]| - k
  {
    PassStep(r, i, k);
    if k == |r.hooks[i]| {
      LastRejectionWins(r, i + 1, 0, j, h);
    } else if i == j && k == h {
      WritesOnce(r, i, k + 1);
    } else {
      LastRejectionWins(r, i, k + 1, j, h);
    }
  }

  /** One builder whose hook rejects what comes back: the run fails, and the batch is written. */
  lemma {:induction false} WrittenAndRejected<M>(r: Run<M>, name: string)
    requires r == Run([[RejectAfter(name)]], [None], None)
    ensures Walk(r, 0, 0).error == Some(FromHook(name)) && Write in Walk(r, 0, 0).trace
  {
    WritesOnce(r, 0, 0);
    CountIn(Walk(r, 0, 0).trace, Write);
    LastRejectionWins(r, 0, 0, 0, 0);
  }

  // ----- the order of events -----

  /** The way down: the hooks of each builder in their order, then its check, then the next builder. */
  function Descent(hooks: seq<nat>, i: nat, k: nat): seq<Event>
    requires i < |hooks| && k <= hooks[i]
    decreases |hooks| - i, hooks[i] - k
  {
    if k < hooks[i] then [Enter(i, k)] + Descent(hooks, i, k + 1)
    else [Checked(i)] + if i < |hooks| - 1 then Descent(hooks, i + 1, 0) else []
  }

  /** The events that answer the given ones, last first. */
  function Mirror(t: seq<Event>): seq<Event> {
    if t == [] then []
    else
      Mirror(t[1..]) + [match t[0] case Enter(i, k) => Leave(i, k) case Checked(i) => Done(i) case e => e]
  }

  lemma Nested(a: Event, d: seq<Event>, u: seq<Event>, b: Event)
    ensures [a] + (d + [Write] + u) + [b] == ([a] + d) + [Write] + (u + [b])
  {
  }

  /** A successful run goes down, writes once, and comes back in exactly the reverse order. */
  lemma {:induction false} Unwinds<M>(r: Run<M>, lens: seq<nat>, i: nat, k: nat)
    requires r.Valid() && i < |r.hooks| && k <= |r.hooks[i]|
    requires |lens| == |r.hooks| && forall j | 0 <= j < |lens| :: lens[j] == |r.hooks[j]|
    requires Walk(r, i, k).error.None?
    ensures Walk(r, i, k).trace == Descent(lens, i, k) + [Write] + Mirror(Descent(lens, i, k))
    decreases |r.hooks| - i, |r.hooks[i]| - k
  {
    var d := Descent(lens, i, k);
    if k < |r.hooks[i]| {
      var rest := Descent(lens, i, k + 1);
      Unwinds(r, lens, i, k + 1);
      assert d == [Enter(i, k)] + rest && d[1..] == rest;
      Nested(Enter(i, k), rest, Mirror(rest), Leave(i, k));
    } else if i < |r.hooks| - 1 {
      var rest := Descent(lens, i + 1, 0);
      Unwinds(r, lens, i + 1, 0);
      assert d == [Checked(i)] + rest && d[1..] == rest;
      Nested(Checked(i), rest, Mirror(rest), Done(i));
    } else {
      assert d == [Checked(i)] && d[1..] == [] && Mirror(d) == [Done(i)];
    }
  }

  /** Whenever the batch is written, every hook has been entered and every check has passed before. */
  lemma {:induction false} WritesAfterDescent<M>(r: Run<M>, lens: seq<nat>, i: nat, k: nat)
    requires r.Valid() && i < |r.hooks| && k <= |r.hooks[i]|
    requires |lens| == |r.hooks| && forall j | 0 <= j < |lens| :: lens[j] == |r.hooks[j]|
    requires AllPass(r, i, k) && r.database.None?
    ensures Descent(lens, i, k) + [Write] <= Walk(r, i, k).trace
    decreases |r.hooks| - i, |r.hooks[i]| - k
  {
    PassStep(r, i, k);
    if k < |r.hooks[i]| {
      WritesAfterDescent(r, lens, i, k + 1);
    } else if i < |r.hooks| - 1 {
      WritesAfterDescent(r, lens, i + 1, 0);
    }
  }

  lemma {:induction false} DescentChecks(hooks: seq<nat>, i: nat, k: nat, j: nat)
    requires i <= j < |hooks| && k <= hooks[i]
    ensures Checked(j) in Descent(hooks, i, k)
    decreases |hooks| - i, hooks[i] - k
  {
    if k < hooks[i] {
      DescentChecks(hooks, i, k + 1, j);
    } else if i < j {
      DescentChecks(hooks, i + 1, 0, j);
    }
  }
}
