/** The defaults and checks of AccountCreate. */
module CreateChecks {
  import opened Relational
  import opened AccountFields

  datatype Failure = Missing(f: Field) | Invalid(f: Field) | NoDefault(f: Field) | FromHook(name: string) | FromDatabase | FromBuilder

  /** The default values; the four that are functions can be left uninitialised. */
  datatype Defaults = Defaults(values: map<Field, Value>)

  ghost predicate ValidDefaults(d: Defaults) {
    && (forall f | f in d.values :: TypeOf(d.values[f]) == EntityType(f))
    && forall f | HasDefault(f) && !FunctionDefault(f) :: f in d.values
  }

  predicate FunctionDefault(f: Field) { f in {CreatedAt, UpdatedAt, Credentials, Extra} }

  /** Every field that check demands has a default but the three that only the caller knows. */
  predicate HasDefault(f: Field) {
    match f
    case CreatedAt | UpdatedAt | Credentials | Extra | Concurrency | Priority | RateMultiplier | GroupRateMultiplier => true
    case Status | AutoPauseOnExpired | Schedulable | QuotaDimension => true
    case _ => false
  }

  const DEFAULTED: seq<Field> := [
    CreatedAt, UpdatedAt, Credentials, Extra, Concurrency, Priority, RateMultiplier, GroupRateMultiplier, Status,
    AutoPauseOnExpired, Schedulable, QuotaDimension]

  /** The fields of a mutation after defaults, and its error: it stops at the first default that is needed and
      not initialised. */
  function Defaulted(d: Defaults, m: map<Field, Value>, order: seq<Field>): (map<Field, Value>, Option<Failure>)
    decreases |order|
  {
    if order == [] then (m, None)
    else if order[0] in m then Defaulted(d, m, order[1..])
    else if order[0] in d.values then Defaulted(d, m[order[0] := d.values[order[0]]], order[1..])
    else (m, Some(NoDefault(order[0])))
  }

  /** Validators as a predicate on a field and its value. */
  type Validators = (Field, Value) -> bool

  /** One step of check: the field must be there, or be valid if it is. */
  datatype CheckStep = Demand(f: Field) | Validate(f: Field)

  const CHECK_STEPS: seq<CheckStep> := [
    Demand(CreatedAt), Demand(UpdatedAt), Demand(Name), Validate(Name), Demand(Platform), Validate(Platform),
    Demand(Type), Validate(Type), Demand(Credentials), Demand(Extra), Demand(Concurrency), Demand(Priority),
    Demand(RateMultiplier), Demand(GroupRateMultiplier), Demand(Status), Validate(Status),
    Demand(AutoPauseOnExpired), Demand(Schedulable), Validate(SessionWindowStatus), Demand(QuotaDimension),
    Validate(QuotaDimension)]

  function StepFails(valid: Validators, m: map<Field, Value>, s: CheckStep): Option<Failure> {
    match s
    case Demand(f) => if f in m then None else Some(Missing(f))
    case Validate(f) => if f in m && !valid(f, m[f]) then Some(Invalid(f)) else None
  }

  /** The error of the first step that fails. */
  function CheckFrom(valid: Validators, m: map<Field, Value>, steps: seq<CheckStep>): Option<Failure> {
    if steps == [] then None
    else
      var r := StepFails(valid, m, steps[0]);
      if r.Some? then r else CheckFrom(valid, m, steps[1..])
  }

  function Check(valid: Validators, m: map<Field, Value>): Option<Failure> { CheckFrom(valid, m, CHECK_STEPS) }

  /** The fields with a validator. */
  predicate Validated(f: Field) { f in {Name, Platform, Type, Status, SessionWindowStatus, QuotaDimension} }

  lemma {:induction false} CheckAll(valid: Validators, m: map<Field, Value>, steps: seq<CheckStep>)
    ensures CheckFrom(valid, m, steps).None? <==> forall s | s in steps :: StepFails(valid, m, s).None?
  {
    if steps != [] {
      CheckAll(valid, m, steps[1..]);
      assert steps == [steps[0]] + steps[1..];
    }
  }

  /** check passes exactly the mutations that hold every required field, and no field its validator refuses. */
  lemma CheckExact(valid: Validators, m: map<Field, Value>)
    ensures Check(valid, m).None? <==>
      (forall f | Required(f) :: f in m) && (forall f | Validated(f) && f in m :: valid(f, m[f]))
  {
    forall f ensures Required(f) <==> Demand(f) in CHECK_STEPS { DemandAt(f); }
    forall f ensures Validated(f) <==> Validate(f) in CHECK_STEPS { ValidateAt(f); }
    CheckMeans(valid, m, CHECK_STEPS);
  }

  /** The same, field by field. */
  lemma {:induction false} CheckFields(valid: Validators, m: map<Field, Value>)
    ensures Check(valid, m).None? <==>
      && {CreatedAt, UpdatedAt, Name, Platform, Type, Credentials, Extra, Concurrency, Priority, RateMultiplier,
          GroupRateMultiplier, Status, AutoPauseOnExpired, Schedulable, QuotaDimension} <= m.Keys
      && forall f | f in {Name, Platform, Type, Status, SessionWindowStatus, QuotaDimension} && f in m :: valid(f, m[f])
  {
    CheckExact(valid, m);
    assert (forall f | Required(f) :: f in m) <==>
      {CreatedAt, UpdatedAt, Name, Platform, Type, Credentials, Extra, Concurrency, Priority, RateMultiplier,
       GroupRateMultiplier, Status, AutoPauseOnExpired, Schedulable, QuotaDimension} <= m.Keys;
  }

  lemma {:induction false} CheckMeans(valid: Validators, m: map<Field, Value>, steps: seq<CheckStep>)
    requires forall f :: Required(f) <==> Demand(f) in steps
    requires forall f :: Validated(f) <==> Validate(f) in steps
    ensures CheckFrom(valid, m, steps).None? <==>
      (forall f | Required(f) :: f in m) && (forall f | Validated(f) && f in m :: valid(f, m[f]))
  {
    CheckAll(valid, m, steps);
    if CheckFrom(valid, m, steps).None? {
      forall f | Required(f) ensures f in m { assert StepFails(valid, m, Demand(f)).None?; }
      forall f | Validated(f) && f in m ensures valid(f, m[f]) { assert StepFails(valid, m, Validate(f)).None?; }
    } else {
      var s :| s in steps && StepFails(valid, m, s).Some?;
      assert s == Demand(s.f) || s == Validate(s.f);
    }
  }

  lemma DemandAt(f: Field)
    ensures Required(f) <==> Demand(f) in CHECK_STEPS
  {
    var i := match f
      case CreatedAt => 0 case UpdatedAt => 1 case Name => 2 case Platform => 4 case Type => 6
      case Credentials => 8 case Extra => 9 case Concurrency => 10 case Priority => 11 case RateMultiplier => 12
      case GroupRateMultiplier => 13 case Status => 14 case AutoPauseOnExpired => 16 case Schedulable => 17
      case QuotaDimension => 19 case _ => -1;
    if i >= 0 { assert CHECK_STEPS[i] == Demand(f); }
  }

  lemma ValidateAt(f: Field)
    ensures Validated(f) <==> Validate(f) in CHECK_STEPS
  {
    var i := match f
      case Name => 3 case Platform => 5 case Type => 7 case Status => 15 case SessionWindowStatus => 18
      case QuotaDimension => 20 case _ => -1;
    if i >= 0 { assert CHECK_STEPS[i] == Validate(f); }
  }

  /** What is set stays; only defaults are added; an error names a field left unset; and doing it again changes
      nothing. */
  lemma {:induction false} DefaultsOnly(d: Defaults, m: map<Field, Value>, order: seq<Field>)
    ensures var (n, e) := Defaulted(d, m, order);
            && (forall f | f in m :: f in n && n[f] == m[f])
            && (forall f | f in n && f !in m :: f in order && f in d.values && n[f] == d.values[f])
            && (if e.None? then forall f | f in order :: f in n
                else exists f :: e == Some(NoDefault(f)) && f in order && f !in n && f !in d.values)
            && Defaulted(d, n, order) == (n, e)
    decreases |order|
  {
    if order != [] {
      var rest := order[1..];
      assert order == [order[0]] + rest;
      if order[0] in m {
        DefaultsOnly(d, m, rest);
      } else if order[0] in d.values {
        DefaultsOnly(d, m[order[0] := d.values[order[0]]], rest);
      }
    }
  }

  /** Only the function defaults can be missing, and check demands each of them: a builder whose defaults failed
      does not pass check, even when the error is discarded. */
  lemma {:induction false} FailedDefaultsFailCheck(valid: Validators, d: Defaults, m: map<Field, Value>)
    requires ValidDefaults(d) && Defaulted(d, m, DEFAULTED).1.Some?
    ensures Check(valid, Defaulted(d, m, DEFAULTED).0).Some?
  {
    DefaultsOnly(d, m, DEFAULTED);
    CheckExact(valid, Defaulted(d, m, DEFAULTED).0);
  }

  // ----- what the two lists come to -----

  lemma DefaultAt(f: Field)
    ensures HasDefault(f) <==> f in DEFAULTED
    ensures HasDefault(f) <==> Required(f) && f != Name && f != Platform && f != Type
  {
    var i := match f
      case CreatedAt => 0 case UpdatedAt => 1 case Credentials => 2 case Extra => 3 case Concurrency => 4
      case Priority => 5 case RateMultiplier => 6 case GroupRateMultiplier => 7 case Status => 8
      case AutoPauseOnExpired => 9 case Schedulable => 10 case QuotaDimension => 11 case _ => -1;
    if i >= 0 { assert DEFAULTED[i] == f; }
  }

  /** defaults sets exactly the fields with a default that are not set; when it returns no error, a mutation with a name,
      a platform and a type that the validators accept passes check. */
  lemma {:induction false} DefaultsComplete(valid: Validators, d: Defaults, m: map<Field, Value>)
    ensures var (n, e) := Defaulted(d, m, DEFAULTED);
      && (forall f | f in n && f !in m :: HasDefault(f) && f in d.values && n[f] == d.values[f])
      && (e.None? ==> forall f | HasDefault(f) :: f in n)
      && (e.None? <==> forall f | HasDefault(f) :: f in m || f in d.values)
      && (e.None? && Name in m && Platform in m && Type in m && (forall f | f in n :: valid(f, n[f])) ==> Check(valid, n).None?)
  {
    var (n, e) := Defaulted(d, m, DEFAULTED);
    DefaultsOnly(d, m, DEFAULTED);
    forall f { DefaultAt(f); }
    CheckExact(valid, n);
    if forall f | HasDefault(f) :: f in m || f in d.values { NoError(d, m, DEFAULTED); }
  }

  /** The same in terms of what check demands. */
  lemma {:induction false} DefaultsGiven(d: Defaults, m: map<Field, Value>)
    ensures var (n, e) := Defaulted(d, m, DEFAULTED);
      && (e.None? ==> forall f | Required(f) && f !in {Name, Platform, Type} :: f in n)
      && forall f | f in n ::
           if f in m then n[f] == m[f]
           else Required(f) && f !in {Name, Platform, Type} && f in d.values && n[f] == d.values[f]
  {
    DefaultsOnly(d, m, DEFAULTED);
    forall f { DefaultAt(f); }
  }

  lemma {:induction false} NoError(d: Defaults, m: map<Field, Value>, order: seq<Field>)
    requires forall f | f in order :: f in m || f in d.values
    ensures Defaulted(d, m, order).1.None?
    decreases |order|
  {
    if order != [] {
      assert order[0] in order && forall f | f in order[1..] :: f in order;
      NoError(d, if order[0] in m then m else m[order[0] := d.values[order[0]]], order[1..]);
    }
  }

  /** The place of a column in the table. */
  function Place(f: Field): nat {
    match f
    case Id => 0 case CreatedAt => 1 case UpdatedAt => 2 case DeletedAt => 3 case Name => 4 case Notes => 5
    case Platform => 6 case Type => 7 case Credentials => 8 case Extra => 9 case ProxyID => 10
    case ProxyFallbackOriginID => 11 case Concurrency => 12 case LoadFactor => 13 case Priority => 14
    case RateMultiplier => 15 case GroupRateMultiplier => 16 case Status => 17 case ErrorMessage => 18
    case LastUsedAt => 19 case ExpiresAt => 20 case AutoPauseOnExpired => 21 case Schedulable => 22
    case RateLimitedAt => 23 case RateLimitResetAt => 24 case OverloadUntil => 25 case TempUnschedulableUntil => 26
    case TempUnschedulableReason => 27 case SessionWindowStart => 28 case SessionWindowEnd => 29
    case SessionWindowStatus => 30 case ParentAccountID => 31 case QuotaDimension => 32
  }

  lemma PlacesDiffer(f: Field, g: Field)
    requires Place(f) == Place(g)
    ensures f == g
  {
  }

  /** Nothing is wrong with column f. */
  predicate Fine(valid: Validators, m: map<Field, Value>, f: Field) {
    (Required(f) ==> f in m) && (Validated(f) && f in m ==> valid(f, m[f]))
  }

  /** The columns are looked at in the order of the table, and of each first whether it is there. */
  function Rank(s: CheckStep): nat { 2 * Place(s.f) + if s.Demand? then 0 else 1 }

  lemma NextStep(i: nat)
    requires i + 1 < |CHECK_STEPS|
    ensures Rank(CHECK_STEPS[i]) < Rank(CHECK_STEPS[i + 1])
  {
  }

  lemma {:induction false} StepsInOrder(i: nat, j: nat)
    requires i < j < |CHECK_STEPS|
    ensures Rank(CHECK_STEPS[i]) < Rank(CHECK_STEPS[j])
    decreases j
  {
    NextStep(j - 1);
    if i < j - 1 { StepsInOrder(i, j - 1); }
  }

  lemma {:induction false} FirstFailing(valid: Validators, m: map<Field, Value>, steps: seq<CheckStep>) returns (i: nat)
    requires CheckFrom(valid, m, steps).Some?
    ensures i < |steps| && CheckFrom(valid, m, steps) == StepFails(valid, m, steps[i])
    ensures forall j | 0 <= j < i :: StepFails(valid, m, steps[j]).None?
  {
    if StepFails(valid, m, steps[0]).Some? {
      i := 0;
    } else {
      var k := FirstFailing(valid, m, steps[1..]);
      i := k + 1;
      assert forall j | 0 < j < i :: steps[j] == steps[1..][j - 1];
    }
  }

  /** check reports the first column of the table that something is wrong with: that it is missing, or that it is
      invalid. */
  lemma {:induction false} CheckReportsFirst(valid: Validators, m: map<Field, Value>, f: Field)
    requires Check(valid, m).Some?
    ensures Check(valid, m) == Some(if f in m then Invalid(f) else Missing(f)) <==>
      !Fine(valid, m, f) && forall g | Place(g) < Place(f) :: Fine(valid, m, g)
  {
    var i := FirstFailing(valid, m, CHECK_STEPS);
    var s := CHECK_STEPS[i];
    FailingStep(valid, m, i);
    if !Fine(valid, m, f) && forall g | Place(g) < Place(f) :: Fine(valid, m, g) { PlacesDiffer(s.f, f); }
  }

  lemma {:induction false} FailingStep(valid: Validators, m: map<Field, Value>, i: nat)
    requires i < |CHECK_STEPS| && StepFails(valid, m, CHECK_STEPS[i]).Some?
    requires forall j | 0 <= j < i :: StepFails(valid, m, CHECK_STEPS[j]).None?
    ensures var f := CHECK_STEPS[i].f;
      && !Fine(valid, m, f) && (forall g | Place(g) < Place(f) :: Fine(valid, m, g))
      && StepFails(valid, m, CHECK_STEPS[i]) == Some(if f in m then Invalid(f) else Missing(f))
  {
    var s := CHECK_STEPS[i];
    assert s in CHECK_STEPS;
    StepMeans(s);
    forall g | Place(g) < Place(s.f) ensures Fine(valid, m, g) {
      if Required(g) { EarlierPasses(valid, m, i, Demand(g)); }
      if Validated(g) { EarlierPasses(valid, m, i, Validate(g)); }
    }
  }

  lemma {:induction false} EarlierPasses(valid: Validators, m: map<Field, Value>, i: nat, e: CheckStep)
    requires i < |CHECK_STEPS| && forall j | 0 <= j < i :: StepFails(valid, m, CHECK_STEPS[j]).None?
    requires if e.Demand? then Required(e.f) else Validated(e.f)
    requires Place(e.f) < Place(CHECK_STEPS[i].f)
    ensures StepFails(valid, m, e).None?
  {
    DemandAt(e.f);
    ValidateAt(e.f);
    assert e == Demand(e.f) || e == Validate(e.f);
    var j :| 0 <= j < |CHECK_STEPS| && CHECK_STEPS[j] == e;
    if i < j { StepsInOrder(i, j); }
  }

  lemma StepMeans(s: CheckStep)
    requires s in CHECK_STEPS
    ensures if s.Demand? then Required(s.f) else Validated(s.f)
  {
    DemandAt(s.f);
    ValidateAt(s.f);
    assert s == Demand(s.f) || s == Validate(s.f);
  }
}
