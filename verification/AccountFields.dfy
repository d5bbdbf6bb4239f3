/** The columns of the accounts table and what the generated code knows of each, one table per place that
    repeats it: the entity, the scan targets, the assignments and the creation spec. */
module AccountFields {
  import opened Relational

  datatype Field =
    | Id | CreatedAt | UpdatedAt | DeletedAt | Name | Notes | Platform | Type | Credentials | Extra
    | ProxyID | ProxyFallbackOriginID | Concurrency | LoadFactor | Priority | RateMultiplier | GroupRateMultiplier
    | Status | ErrorMessage | LastUsedAt | ExpiresAt | AutoPauseOnExpired | Schedulable
    | RateLimitedAt | RateLimitResetAt | OverloadUntil | TempUnschedulableUntil | TempUnschedulableReason
    | SessionWindowStart | SessionWindowEnd | SessionWindowStatus | ParentAccountID | QuotaDimension

  /** A selected column: one of the table, or anything else a modifier selects. */
  datatype Column = Known(field: Field) | Other(name: string)

  /** The edges of an account. */
  datatype Edge = Groups | Proxy | Parent | Children | UsageLogs

  datatype GoType = GoInt | GoString | GoTime | GoBool | GoFloat | GoMap

  /** A JSON document as the entity holds it; None is the nil map. */
  type Document = Option<map<string, string>>

  datatype Value = IntV(n: int) | TextV(s: string) | TimeV(t: int) | BoolV(b: bool) | FloatV(r: real) | DocV(doc: Document)

  /** An entity field: a nil pointer, or a value. */
  datatype Slot = Nil | Holds(value: Value)

  function TypeOf(v: Value): GoType {
    match v
    case IntV(_) => GoInt
    case TextV(_) => GoString
    case TimeV(_) => GoTime
    case BoolV(_) => GoBool
    case FloatV(_) => GoFloat
    case DocV(_) => GoMap
  }

  function ZeroOf(t: GoType): Value {
    match t
    case GoInt => IntV(0)
    case GoString => TextV("")
    case GoTime => TimeV(0)
    case GoBool => BoolV(false)
    case GoFloat => FloatV(0.0)
    case GoMap => DocV(None)
  }

  // ----- the entity -----

  function EntityType(f: Field): GoType {
    match f
    case Id | ProxyID | ProxyFallbackOriginID | Concurrency | LoadFactor | Priority | ParentAccountID => GoInt
    case Name | Notes | Platform | Type | Status | ErrorMessage => GoString
    case TempUnschedulableReason | SessionWindowStatus | QuotaDimension => GoString
    case AutoPauseOnExpired | Schedulable => GoBool
    case RateMultiplier | GroupRateMultiplier => GoFloat
    case Credentials | Extra => GoMap
    case _ => GoTime
  }

  /** The fields that are pointers. */
  predicate Nillable(f: Field) {
    f in {DeletedAt, Notes, ProxyID, ProxyFallbackOriginID, LoadFactor, ErrorMessage, LastUsedAt, ExpiresAt,
          RateLimitedAt, RateLimitResetAt, OverloadUntil, TempUnschedulableUntil, TempUnschedulableReason,
          SessionWindowStart, SessionWindowEnd, SessionWindowStatus, ParentAccountID}
  }

  function ZeroSlot(f: Field): Slot { if Nillable(f) then Nil else Holds(ZeroOf(EntityType(f))) }

  // ----- scanning -----

  datatype Target = NullInt64 | NullString | NullTime | NullBool | NullFloat64 | RawBytes | UnknownType

  /** The scan target scanValues allocates for a column. */
  function ScanTarget(c: Column): Target {
    match c
    case Known(Credentials) | Known(Extra) => RawBytes
    case Known(AutoPauseOnExpired) | Known(Schedulable) => NullBool
    case Known(RateMultiplier) | Known(GroupRateMultiplier) => NullFloat64
    case Known(Id) | Known(ProxyID) | Known(ProxyFallbackOriginID) | Known(Concurrency) | Known(LoadFactor)
       | Known(Priority) | Known(ParentAccountID) => NullInt64
    case Known(Name) | Known(Notes) | Known(Platform) | Known(Type) | Known(Status) | Known(ErrorMessage)
       | Known(TempUnschedulableReason) | Known(SessionWindowStatus) | Known(QuotaDimension) => NullString
    case Known(CreatedAt) | Known(UpdatedAt) | Known(DeletedAt) | Known(LastUsedAt) | Known(ExpiresAt)
       | Known(RateLimitedAt) | Known(RateLimitResetAt) | Known(OverloadUntil) | Known(TempUnschedulableUntil)
       | Known(SessionWindowStart) | Known(SessionWindowEnd) => NullTime
    case Other(_) => UnknownType
  }

  /** The scan target assignValues expects for a field. */
  function AssignTarget(f: Field): Target {
    match f
    case Id => NullInt64
    case CreatedAt => NullTime
    case UpdatedAt => NullTime
    case DeletedAt => NullTime
    case Name => NullString
    case Notes => NullString
    case Platform => NullString
    case Type => NullString
    case Credentials => RawBytes
    case Extra => RawBytes
    case ProxyID => NullInt64
    case ProxyFallbackOriginID => NullInt64
    case Concurrency => NullInt64
    case LoadFactor => NullInt64
    case Priority => NullInt64
    case RateMultiplier => NullFloat64
    case GroupRateMultiplier => NullFloat64
    case Status => NullString
    case ErrorMessage => NullString
    case LastUsedAt => NullTime
    case ExpiresAt => NullTime
    case AutoPauseOnExpired => NullBool
    case Schedulable => NullBool
    case RateLimitedAt => NullTime
    case RateLimitResetAt => NullTime
    case OverloadUntil => NullTime
    case TempUnschedulableUntil => NullTime
    case TempUnschedulableReason => NullString
    case SessionWindowStart => NullTime
    case SessionWindowEnd => NullTime
    case SessionWindowStatus => NullString
    case ParentAccountID => NullInt64
    case QuotaDimension => NullString
  }

  // ----- creating -----

  datatype SpecType = TypeInt64 | TypeInt | TypeString | TypeEnum | TypeTime | TypeBool | TypeFloat64 | TypeJSON

  /** The columns of the blocks of createSpec, in their order. */
  const CREATE_BLOCKS: seq<Field> := [
    CreatedAt, UpdatedAt, DeletedAt, Name, Notes, Platform, Type, Credentials, Extra, ProxyFallbackOriginID,
    Concurrency, LoadFactor, Priority, RateMultiplier, GroupRateMultiplier, Status, ErrorMessage, LastUsedAt,
    ExpiresAt, AutoPauseOnExpired, Schedulable, RateLimitedAt, RateLimitResetAt, OverloadUntil,
    TempUnschedulableUntil, TempUnschedulableReason, SessionWindowStart, SessionWindowEnd, SessionWindowStatus,
    QuotaDimension]

  /** The type with which createSpec hands a column over. */
  function CreateType(f: Field): SpecType {
    match f
    case Id | ProxyID | ProxyFallbackOriginID | ParentAccountID => TypeInt64
    case Concurrency | LoadFactor | Priority => TypeInt
    case Name | Notes | Platform | Type | Status | ErrorMessage => TypeString
    case TempUnschedulableReason | SessionWindowStatus => TypeString
    case QuotaDimension => TypeEnum
    case AutoPauseOnExpired | Schedulable => TypeBool
    case RateMultiplier | GroupRateMultiplier => TypeFloat64
    case Credentials | Extra => TypeJSON
    case _ => TypeTime
  }

  predicate Fits(t: SpecType, v: GoType) {
    match t
    case TypeInt64 | TypeInt => v == GoInt
    case TypeString | TypeEnum => v == GoString
    case TypeTime => v == GoTime
    case TypeBool => v == GoBool
    case TypeFloat64 => v == GoFloat
    case TypeJSON => v == GoMap
  }

  /** The columns createSpec writes from values of their own. */
  predicate HasBlock(f: Field) { f != Id && f != ProxyID && f != ParentAccountID }

  /** The fields check demands. */
  predicate Required(f: Field) {
    f in {CreatedAt, UpdatedAt, Name, Platform, Type, Credentials, Extra, Concurrency, Priority, RateMultiplier,
          GroupRateMultiplier, Status, AutoPauseOnExpired, Schedulable, QuotaDimension}
  }

  // ----- what a builder has been told -----

  /** The values set on a mutation, and the ids set on its edges. */
  datatype Mutation = Mutation(
    fields: map<Field, Value>, proxy: seq<int>, parent: seq<int>,
    groups: seq<int>, children: seq<int>, usageLogs: seq<int>)

  /** The setters are typed, there is none for the id, and those of the two foreign keys set the edge. */
  predicate WellTyped(m: Mutation) {
    && (forall f | f in m.fields :: TypeOf(m.fields[f]) == EntityType(f))
    && Id !in m.fields && ProxyID !in m.fields && ParentAccountID !in m.fields
  }
}
