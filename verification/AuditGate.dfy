/** The audit gate: the index of exceptions, the scan of the report, and the exit code. */
module AuditGate {
  import opened Relational
  import opened PyText
  import opened ExceptionList
  import opened AuditReport
  import opened Sealing

  type Key = (string, string)

  datatype Indexed = Indexed(severity: string, expires: int)

  datatype GateError =
    | MissingFields | InvalidDate | EmptyKey | Duplicate(key: Key)
    | NoAdvisory(name: Json) | Mismatch(key: Key) | Missing(keys: seq<Key>) | Expired(keys: seq<Key>)

  // ----- normalisers -----

  /** None where Python raises: a severity that is there must be a string. */
  function NormalizeSeverity(py: Python, severity: Json): Option<string> {
    if !Truthy(severity) then Some("") else if severity.JStr? then Some(py.lower(Strip(severity.s))) else None
  }

  function NormalizePackage(py: Python, name: Json): string { if name == JNull then "" else Strip(py.Str(name)) }

  function NormalizeAdvisory(py: Python, advisory: Json): string {
    if advisory == JNull then "" else py.lower(Strip(py.Str(advisory)))
  }

  predicate High(severity: string) { severity == "high" || severity == "critical" }

  // ----- the exceptions -----

  const REQUIRED_FIELDS: seq<string> := ["package", "advisory", "severity", "mitigation", "expires_on"]

  predicate Given(exc: Entry, field: string) { field in exc && exc[field] != "" }

  function EntryKey(py: Python, exc: Entry): Key
    requires Given(exc, "package") && Given(exc, "advisory")
  {
    (NormalizePackage(py, JStr(exc["package"])), NormalizeAdvisory(py, JStr(exc["advisory"])))
  }

  /** An exception that can stand in the index. */
  predicate EntryOk(py: Python, exc: Entry) {
    && (forall i | 0 <= i < |REQUIRED_FIELDS| :: Given(exc, REQUIRED_FIELDS[i]))
    && Given(exc, "package") && Given(exc, "advisory") && Given(exc, "severity") && Given(exc, "expires_on")
    && py.parseDate(exc["expires_on"]).Some?
    && EntryKey(py, exc).0 != "" && EntryKey(py, exc).1 != ""
  }

  function IndexedAs(py: Python, exc: Entry): Indexed
    requires EntryOk(py, exc)
  {
    Indexed(py.lower(Strip(exc["severity"])), py.parseDate(exc["expires_on"]).value)
  }

  /** The index entry of an exception, if it can have one. */
  function SlotOf(py: Python, exc: Entry): Option<(Key, Indexed)> {
    if EntryOk(py, exc) then Some((EntryKey(py, exc), IndexedAs(py, exc))) else None
  }

  function Slots(py: Python, excs: seq<Entry>): (slots: seq<Option<(Key, Indexed)>>)
    ensures |slots| == |excs| && forall i | 0 <= i < |excs| :: slots[i] == SlotOf(py, excs[i])
  {
    seq(|excs|, i requires 0 <= i < |excs| => SlotOf(py, excs[i]))
  }

  /** Every exception can be indexed, and no two share a key. */
  ghost predicate AllIndexed(slots: seq<Option<(Key, Indexed)>>) {
    && (forall i | 0 <= i < |slots| :: slots[i].Some?)
    && forall i, j | 0 <= i < j < |slots| :: slots[i].value.0 != slots[j].value.0
  }

  /** index holds the exceptions under their keys, the first of each key. */
  ghost predicate Indexes(slots: seq<Option<(Key, Indexed)>>, index: map<Key, Indexed>) {
    && (forall i | 0 <= i < |slots| && slots[i].Some? :: slots[i].value.0 in index)
    && forall k | k in index :: exists i | 0 <= i < |slots| :: slots[i] == Some((k, index[k]))
  }

  datatype Checked = Good(key: Key, indexed: Indexed) | Bad(error: GateError)

  /** slots are the index entries of the exceptions; sealed. */
  ghost predicate SlotsAre(py: Python, excs: seq<Entry>, slots: seq<Option<(Key, Indexed)>>) {
    |slots| == |excs| && forall k {:trigger Open(Views, k)} :: Open(Views, k) ==> slots == Slots(py, excs)
  }

  method CheckEntry(py: Python, excs: seq<Entry>, n: nat, ghost slots: seq<Option<(Key, Indexed)>>) returns (r: Checked)
    requires n < |excs| && SlotsAre(py, excs, slots)
    ensures slots[n] == if r.Good? then Some((r.key, r.indexed)) else None
  {
    var exc := excs[n];
    assert Open(Views, 0);
    var missing := MissingOf(exc);
    if |missing| > 0 {
      return Bad(MissingFields);
    }
    GivenAll(exc);
    var severity := py.lower(Strip(exc["severity"]));
    var package := NormalizePackage(py, JStr(exc["package"]));
    var advisory := NormalizeAdvisory(py, JStr(exc["advisory"]));
    var expires := py.parseDate(exc["expires_on"]);
    if expires.None? {
      return Bad(InvalidDate);
    }
    if package == "" || advisory == "" {
      return Bad(EmptyKey);
    }
    return Good((package, advisory), Indexed(severity, expires.value));
  }

  method BuildIndex(py: Python, excs: seq<Entry>) returns (index: map<Key, Indexed>, errors: seq<GateError>)
    ensures Indexes(Slots(py, excs), index)
    ensures errors == [] <==> AllIndexed(Slots(py, excs))
  {
    index, errors := FillIndex(py, excs, Slots(py, excs));
  }

  method FillIndex(py: Python, excs: seq<Entry>, ghost slots: seq<Option<(Key, Indexed)>>)
    returns (index: map<Key, Indexed>, errors: seq<GateError>)
    requires SlotsAre(py, excs, slots)
    ensures Indexes(slots, index)
    ensures errors == [] <==> AllIndexed(slots)
  {
    index, errors := map[], [];
    for n := 0 to |excs|
      invariant Indexes(slots[..n], index)
      invariant errors == [] <==> AllIndexed(slots[..n])
    {
      var r := CheckEntry(py, excs, n, slots);
      assert slots[..n + 1] == slots[..n] + [slots[n]];
      IndexStep(slots[..n], slots[n], index);
      if r.Bad? {
        errors := errors + [r.error];
      } else if r.key in index {
        errors := errors + [Duplicate(r.key)];
      } else {
        index := index[r.key := r.indexed];
      }
    }
    assert slots[..|excs|] == slots;
  }

  lemma IndexStep(slots: seq<Option<(Key, Indexed)>>, slot: Option<(Key, Indexed)>, index: map<Key, Indexed>)
    requires Indexes(slots, index)
    ensures slot.None? || slot.value.0 in index ==> Indexes(slots + [slot], index) && !AllIndexed(slots + [slot])
    ensures slot.Some? && slot.value.0 !in index ==>
              Indexes(slots + [slot], index[slot.value.0 := slot.value.1]) && (AllIndexed(slots + [slot]) <==> AllIndexed(slots))
  {
    var more := slots + [slot];
    assert more[|slots|] == slot && forall i | 0 <= i < |slots| :: more[i] == slots[i];
    forall k | k in index ensures exists i | 0 <= i < |slots| :: more[i] == Some((k, index[k])) {
      var i :| 0 <= i < |slots| && slots[i] == Some((k, index[k]));
      assert more[i] == slots[i];
    }
  }

  /** The required fields that an exception does not have, or has empty. */
  method MissingOf(exc: Entry) returns (missing: seq<string>)
    ensures missing == [] <==> forall i | 0 <= i < |REQUIRED_FIELDS| :: Given(exc, REQUIRED_FIELDS[i])
  {
    missing := [];
    for i := 0 to |REQUIRED_FIELDS|
      invariant missing == [] <==> forall j | 0 <= j < i :: Given(exc, REQUIRED_FIELDS[j])
    {
      if !Given(exc, REQUIRED_FIELDS[i]) {
        missing := missing + [REQUIRED_FIELDS[i]];
      }
    }
  }

  lemma GivenAll(exc: Entry)
    requires forall i | 0 <= i < |REQUIRED_FIELDS| :: Given(exc, REQUIRED_FIELDS[i])
    ensures Given(exc, "package") && Given(exc, "advisory") && Given(exc, "severity") && Given(exc, "expires_on")
  {
    assert REQUIRED_FIELDS[0] == "package" && REQUIRED_FIELDS[1] == "advisory" && REQUIRED_FIELDS[2] == "severity"
        && REQUIRED_FIELDS[4] == "expires_on";
  }

  // ----- the scan -----

  /** What a tuple means to the scan. */
  datatype Sighting = Raises | Irrelevant | Anonymous(name: Json) | Sighted(key: Key, severity: string)

  function Sight(py: Python, v: Vuln): Sighting {
    var severity := NormalizeSeverity(py, v.severity);
    if severity.None? then Raises
    else if !High(severity.value) || !Truthy(v.name) then Irrelevant
    else if NormalizeAdvisory(py, v.advisory) == "" then Anonymous(v.name)
    else Sighted((NormalizePackage(py, v.name), NormalizeAdvisory(py, v.advisory)), severity.value)
  }

  function Sightings(py: Python, vulns: seq<Vuln>): (ss: seq<Sighting>)
    ensures |ss| == |vulns| && forall i | 0 <= i < |vulns| :: ss[i] == Sight(py, vulns[i])
  {
    seq(|vulns|, i requires 0 <= i < |vulns| => Sight(py, vulns[i]))
  }

  /** The keys that are sighted, in the order in which they first are. */
  function FirstKeys(ss: seq<Sighting>): seq<Key> {
    if ss == [] then []
    else
      var ks, s := FirstKeys(ss[..|ss| - 1]), ss[|ss| - 1];
      if s.Sighted? && s.key !in ks then ks + [s.key] else ks
  }

  /** No earlier tuple has the same key. */
  predicate IsFirst(ss: seq<Sighting>, i: nat)
    requires i < |ss|
  {
    ss[i].Sighted? && forall j | 0 <= j < i :: ss[j].Sighted? ==> ss[j].key != ss[i].key
  }

  predicate Agrees(x: Indexed, severity: string) { x.severity == "" || x.severity == severity }

  function Unexcepted(index: map<Key, Indexed>): Key -> bool { (k: Key) => k !in index }
  function Overdue(index: map<Key, Indexed>, today: int): Key -> bool {
    (k: Key) => k in index && index[k].expires < today
  }

  /** The keys without an exception, and those whose exception has expired, each where it is first sighted. */
  function MissingKeys(index: map<Key, Indexed>, ss: seq<Sighting>): seq<Key> { Filter(Unexcepted(index), FirstKeys(ss)) }
  function ExpiredKeys(index: map<Key, Indexed>, today: int, ss: seq<Sighting>): seq<Key> {
    Filter(Overdue(index, today), FirstKeys(ss))
  }

  /** A tuple that is reported on its own. */
  predicate Reported(index: map<Key, Indexed>, ss: seq<Sighting>, i: nat)
    requires i < |ss|
  {
    ss[i].Anonymous? || (IsFirst(ss, i) && ss[i].key in index && !Agrees(index[ss[i].key], ss[i].severity))
  }

  /** The variables of the scan. */
  datatype Noted = Noted(seen: set<Key>, missing: seq<Key>, expired: seq<Key>, errors: seq<GateError>)

  /** No tuple before n is reported on its own. */
  ghost predicate NoneReported(index: map<Key, Indexed>, ss: seq<Sighting>, n: nat)
    requires n <= |ss|
  {
    forall i | 0 <= i < n :: !Reported(index, ss, i)
  }

  /** What is noted of the first n tuples. */
  ghost predicate UpTo(index: map<Key, Indexed>, today: int, ss: seq<Sighting>, n: nat, noted: Noted)
    requires n <= |ss|
  {
    && (forall k :: k in noted.seen <==> k in FirstKeys(ss[..n]))
    && noted.missing == MissingKeys(index, ss[..n]) && noted.expired == ExpiredKeys(index, today, ss[..n])
    && (noted.errors == [] <==> NoneReported(index, ss, n))
  }

  /** ss is what the tuples mean; sealed. */
  ghost predicate SightingsAre(py: Python, vulns: seq<Vuln>, ss: seq<Sighting>) {
    |ss| == |vulns| && forall k {:trigger Open(Views, k)} :: Open(Views, k) ==> ss == Sightings(py, vulns)
  }

  /** The part of the scan that looks at one tuple alone. */
  method See(py: Python, vulns: seq<Vuln>, n: nat, ghost ss: seq<Sighting>) returns (s: Sighting)
    requires n < |vulns| && SightingsAre(py, vulns, ss)
    ensures s == ss[n]
  {
    assert Open(Views, 0);
    var v := vulns[n];
    var severity := NormalizeSeverity(py, v.severity);
    if severity.None? {
      return Raises;
    }
    if !High(severity.value) || !Truthy(v.name) {
      return Irrelevant;
    }
    var advisory := NormalizeAdvisory(py, v.advisory);
    if advisory == "" {
      return Anonymous(v.name);
    }
    return Sighted((NormalizePackage(py, v.name), advisory), severity.value);
  }

  /** The part of the scan that looks a key up for the first time. */
  method LookUp(index: map<Key, Indexed>, key: Key, severity: string, today: int, noted: Noted) returns (after: Noted)
    ensures after.seen == noted.seen
    ensures after.missing == noted.missing + if key !in index then [key] else []
    ensures after.expired == noted.expired + if key in index && index[key].expires < today then [key] else []
    ensures after.errors == [] <==> noted.errors == [] && (key in index ==> Agrees(index[key], severity))
  {
    after := noted;
    if key !in index {
      return after.(missing := after.missing + [key]);
    }
    var exc := index[key];
    if exc.severity != "" && exc.severity != severity {
      after := after.(errors := after.errors + [Mismatch(key)]);
    }
    if exc.expires < today {
      after := after.(expired := after.expired + [key]);
    }
  }

  method Note(index: map<Key, Indexed>, today: int, s: Sighting, noted: Noted, ghost ss: seq<Sighting>, ghost n: nat)
    returns (after: Noted)
    requires n < |ss| && s == ss[n] && !s.Raises? && UpTo(index, today, ss, n, noted)
    ensures UpTo(index, today, ss, n + 1, after)
  {
    FirstSnoc(ss, n);
    after := noted;
    if s.Anonymous? {
      after := after.(errors := after.errors + [NoAdvisory(s.name)]);
    } else if s.Sighted? && s.key !in noted.seen {
      after := LookUp(index, s.key, s.severity, today, noted.(seen := noted.seen + {s.key}));
    }
    UpToNext(index, today, ss, n, noted, after);
  }

  lemma UpToNext(index: map<Key, Indexed>, today: int, ss: seq<Sighting>, n: nat, noted: Noted, after: Noted)
    requires n < |ss| && UpTo(index, today, ss, n, noted)
    requires after.seen == if IsFirst(ss, n) then noted.seen + {ss[n].key} else noted.seen
    requires after.missing == noted.missing + if IsFirst(ss, n) && ss[n].key !in index then [ss[n].key] else []
    requires after.expired
          == noted.expired + if IsFirst(ss, n) && ss[n].key in index && index[ss[n].key].expires < today then [ss[n].key] else []
    requires after.errors == [] <==> noted.errors == [] && !Reported(index, ss, n)
    ensures UpTo(index, today, ss, n + 1, after)
  {
    FirstSnoc(ss, n);
    KeysSnoc(index, today, ss, n);
    ReportedSnoc(index, ss, n);
  }

  method ScanSightings(py: Python, index: map<Key, Indexed>, vulns: seq<Vuln>, today: int, ghost ss: seq<Sighting>)
    returns (noted: Noted, raised: bool)
    requires SightingsAre(py, vulns, ss)
    ensures raised <==> exists i | 0 <= i < |ss| :: ss[i].Raises?
    ensures !raised ==> UpTo(index, today, ss, |ss|, noted)
  {
    noted, raised := Noted({}, [], [], []), false;
    for n := 0 to |vulns|
      invariant forall i | 0 <= i < n :: !ss[i].Raises?
      invariant UpTo(index, today, ss, n, noted)
    {
      var s := See(py, vulns, n, ss);
      if s.Raises? {
        raised := true;
        return;
      }
      noted := Note(index, today, s, noted, ss, n);
    }
  }

  method Scan(py: Python, index: map<Key, Indexed>, vulns: seq<Vuln>, today: int)
    returns (missing: seq<Key>, expired: seq<Key>, errors: seq<GateError>, raised: bool)
    ensures raised <==> exists i | 0 <= i < |vulns| :: Sightings(py, vulns)[i].Raises?
    ensures !raised ==> missing == MissingKeys(index, Sightings(py, vulns))
    ensures !raised ==> expired == ExpiredKeys(index, today, Sightings(py, vulns))
    ensures !raised ==> (errors == [] <==> NoneReported(index, Sightings(py, vulns), |vulns|))
  {
    ghost var ss := Sightings(py, vulns);
    assert ss[..|vulns|] == ss;
    var noted;
    noted, raised := ScanSightings(py, index, vulns, today, ss);
    missing, expired, errors := noted.missing, noted.expired, noted.errors;
  }

  lemma KeysSnoc(index: map<Key, Indexed>, today: int, ss: seq<Sighting>, n: nat)
    requires n < |ss|
    ensures MissingKeys(index, ss[..n + 1])
         == MissingKeys(index, ss[..n]) + if IsFirst(ss, n) && ss[n].key !in index then [ss[n].key] else []
    ensures ExpiredKeys(index, today, ss[..n + 1])
         == ExpiredKeys(index, today, ss[..n])
            + if IsFirst(ss, n) && ss[n].key in index && index[ss[n].key].expires < today then [ss[n].key] else []
  {
    FirstSnoc(ss, n);
    if IsFirst(ss, n) {
      FilterSnoc(Unexcepted(index), FirstKeys(ss[..n]), ss[n].key);
      FilterSnoc(Overdue(index, today), FirstKeys(ss[..n]), ss[n].key);
    }
  }

  lemma ReportedSnoc(index: map<Key, Indexed>, ss: seq<Sighting>, n: nat)
    requires n < |ss|
    ensures NoneReported(index, ss, n + 1) <==> NoneReported(index, ss, n) && !Reported(index, ss, n)
  {
  }

  lemma {:induction false} FirstKeysAre(ss: seq<Sighting>)
    ensures forall k :: k in FirstKeys(ss) <==> exists j | 0 <= j < |ss| :: ss[j].Sighted? && ss[j].key == k
  {
    if ss != [] {
      var init, s := ss[..|ss| - 1], ss[|ss| - 1];
      FirstKeysAre(init);
      forall k ensures k in FirstKeys(ss) <==> exists j | 0 <= j < |ss| :: ss[j].Sighted? && ss[j].key == k {
        if j :| 0 <= j < |ss| && ss[j].Sighted? && ss[j].key == k {
          if j < |ss| - 1 { assert init[j].Sighted? && init[j].key == k; }
        }
        if k in FirstKeys(init) {
          var j :| 0 <= j < |init| && init[j].Sighted? && init[j].key == k;
          assert ss[j].Sighted? && ss[j].key == k;
        }
      }
    }
  }

  lemma FirstSnoc(ss: seq<Sighting>, n: nat)
    requires n < |ss|
    ensures FirstKeys(ss[..n + 1]) == if IsFirst(ss, n) then FirstKeys(ss[..n]) + [ss[n].key] else FirstKeys(ss[..n])
    ensures ss[n].Sighted? ==> (IsFirst(ss, n) <==> ss[n].key !in FirstKeys(ss[..n]))
  {
    assert ss[..n + 1][..n] == ss[..n];
    FirstKeysAre(ss[..n]);
    if ss[n].Sighted? {
      if ss[n].key in FirstKeys(ss[..n]) {
        var j :| 0 <= j < n && ss[..n][j].Sighted? && ss[..n][j].key == ss[n].key;
        assert ss[j].key == ss[n].key;
      } else {
        forall j | 0 <= j < n && ss[j].Sighted? ensures ss[j].key != ss[n].key { assert ss[..n][j] == ss[j]; }
      }
    }
  }

  // ----- the verdict -----

  /** An exception covers a key of a severity on a day. */
  predicate Covers(slot: Option<(Key, Indexed)>, key: Key, severity: string, today: int) {
    slot.Some? && slot.value.0 == key && Agrees(slot.value.1, severity) && today <= slot.value.1.expires
  }

  ghost predicate Covered(slots: seq<Option<(Key, Indexed)>>, key: Key, severity: string, today: int) {
    exists i | 0 <= i < |slots| :: Covers(slots[i], key, severity, today)
  }

  /** No tuple raises or lacks an advisory, and every key is covered where it is first sighted. */
  ghost predicate Cleared(slots: seq<Option<(Key, Indexed)>>, ss: seq<Sighting>, today: int) {
    && (forall i | 0 <= i < |ss| :: !ss[i].Raises? && !ss[i].Anonymous?)
    && forall i | 0 <= i < |ss| && IsFirst(ss, i) :: Covered(slots, ss[i].key, ss[i].severity, today)
  }

  /** When the gate lets a report pass. */
  ghost predicate Passes(py: Python, audit: Json, text: string, today: int) {
    && Parse(text).Some? && AllIndexed(Slots(py, Parse(text).value))
    && !ReportRaises(audit)
    && Cleared(Slots(py, Parse(text).value), Sightings(py, Yielded(py, audit)), today)
  }

  // ----- the verdict in terms of the two files -----

  /** Every exception has its five fields, a date, and a package and an advisory that are not blank, and no two are for
      the same package and advisory. */
  ghost predicate ListInOrder(py: Python, es: seq<Entry>) {
    && (forall i, k | 0 <= i < |es| && k in {"package", "advisory", "severity", "mitigation", "expires_on"} ::
          k in es[i] && es[i][k] != "")
    && (forall i | 0 <= i < |es| ::
          && py.parseDate(es[i]["expires_on"]).Some?
          && Strip(es[i]["package"]) != "" && py.lower(Strip(es[i]["advisory"])) != "")
    && forall i, j | 0 <= i < j < |es| ::
         Strip(es[i]["package"]) != Strip(es[j]["package"])
         || py.lower(Strip(es[i]["advisory"])) != py.lower(Strip(es[j]["advisory"]))
  }

  /** A named tuple of severity high or critical. */
  ghost predicate Grave(py: Python, v: Vuln) {
    && Truthy(v.name) && v.severity.JStr? && v.severity.s != ""
    && (py.lower(Strip(v.severity.s)) == "high" || py.lower(Strip(v.severity.s)) == "critical")
  }

  /** The text of an advisory; blank if there is none. */
  ghost function AdvisoryText(py: Python, v: Vuln): string {
    if v.advisory == JNull then "" else py.lower(Strip(py.Str(v.advisory)))
  }

  /** Two tuples of the same package and advisory. */
  ghost predicate SameFinding(py: Python, v: Vuln, w: Vuln) {
    Strip(py.Str(v.name)) == Strip(py.Str(w.name)) && AdvisoryText(py, v) == AdvisoryText(py, w)
  }

  /** Exception e is for v, of no severity or of its own, and has not expired. */
  ghost predicate Excuses(py: Python, e: Entry, v: Vuln, today: int) {
    && "package" in e && "advisory" in e && "severity" in e && "expires_on" in e && v.severity.JStr?
    && Strip(e["package"]) == Strip(py.Str(v.name)) && py.lower(Strip(e["advisory"])) == AdvisoryText(py, v)
    && (py.lower(Strip(e["severity"])) == "" || py.lower(Strip(e["severity"])) == py.lower(Strip(v.severity.s)))
    && py.parseDate(e["expires_on"]).Some? && today <= py.parseDate(e["expires_on"]).value
  }

  /** Tuple i is grave, and no earlier grave one is for the same package and advisory. */
  ghost predicate FirstGrave(py: Python, vulns: seq<Vuln>, i: int) {
    0 <= i < |vulns| && Grave(py, vulns[i]) && forall j | 0 <= j < i && Grave(py, vulns[j]) :: !SameFinding(py, vulns[j], vulns[i])
  }

  /** The list is in order, no severity raises, and each grave tuple has an advisory and, unless an earlier one is for the
      same package and advisory, an exception that excuses it. */
  ghost predicate Excused(py: Python, es: seq<Entry>, vulns: seq<Vuln>, today: int) {
    && ListInOrder(py, es)
    && (forall i | 0 <= i < |vulns| :: Truthy(vulns[i].severity) ==> vulns[i].severity.JStr?)
    && (forall i | 0 <= i < |vulns| && Grave(py, vulns[i]) :: AdvisoryText(py, vulns[i]) != "")
    && forall i | FirstGrave(py, vulns, i) :: exists k | 0 <= k < |es| :: Excuses(py, es[k], vulns[i], today)
  }

  lemma {:induction false} EntryMeans(py: Python, e: Entry)
    ensures EntryOk(py, e) <==>
      && (forall k | k in {"package", "advisory", "severity", "mitigation", "expires_on"} :: k in e && e[k] != "")
      && py.parseDate(e["expires_on"]).Some? && Strip(e["package"]) != "" && py.lower(Strip(e["advisory"])) != ""
  {
    FieldsAre(e);
  }

  lemma FieldsAre(e: Entry)
    ensures (forall i | 0 <= i < |REQUIRED_FIELDS| :: Given(e, REQUIRED_FIELDS[i])) <==>
      forall k | k in {"package", "advisory", "severity", "mitigation", "expires_on"} :: k in e && e[k] != ""
  {
    assert REQUIRED_FIELDS[0] == "package" && REQUIRED_FIELDS[1] == "advisory" && REQUIRED_FIELDS[2] == "severity"
        && REQUIRED_FIELDS[3] == "mitigation" && REQUIRED_FIELDS[4] == "expires_on";
  }

  lemma {:induction false} ListMeans(py: Python, es: seq<Entry>)
    ensures AllIndexed(Slots(py, es)) <==> ListInOrder(py, es)
  {
    var slots := Slots(py, es);
    forall i | 0 <= i < |es| { EntryMeans(py, es[i]); }
    if forall i | 0 <= i < |es| :: EntryOk(py, es[i]) {
      forall i | 0 <= i < |es|
        ensures slots[i].Some? && slots[i].value.0 == (Strip(es[i]["package"]), py.lower(Strip(es[i]["advisory"]))) {}
    } else {
      var i :| 0 <= i < |es| && !EntryOk(py, es[i]);
      assert slots[i].None?;
    }
  }

  lemma SightMeans(py: Python, v: Vuln)
    ensures Sight(py, v).Raises? <==> Truthy(v.severity) && !v.severity.JStr?
    ensures Sight(py, v).Anonymous? <==> Grave(py, v) && AdvisoryText(py, v) == ""
    ensures Sight(py, v).Sighted? <==> Grave(py, v) && AdvisoryText(py, v) != ""
    ensures Sight(py, v).Sighted? ==>
      Sight(py, v) == Sighted((Strip(py.Str(v.name)), AdvisoryText(py, v)), py.lower(Strip(v.severity.s)))
  {
  }

  lemma {:induction false} FirstMeans(py: Python, vulns: seq<Vuln>, i: nat)
    requires i < |vulns| && (Grave(py, vulns[i]) ==> AdvisoryText(py, vulns[i]) != "")
    ensures IsFirst(Sightings(py, vulns), i) <==> FirstGrave(py, vulns, i)
  {
    var ss := Sightings(py, vulns);
    forall j | 0 <= j <= i { SightMeans(py, vulns[j]); }
    if Grave(py, vulns[i]) {
      forall j | 0 <= j < i
        ensures ss[j].Sighted? && ss[j].key == ss[i].key <==> Grave(py, vulns[j]) && SameFinding(py, vulns[j], vulns[i])
      {
        assert ss[j] == Sight(py, vulns[j]) && ss[i] == Sight(py, vulns[i]);
      }
    }
  }

  lemma {:induction false} CoverMeans(py: Python, es: seq<Entry>, v: Vuln, today: int)
    requires ListInOrder(py, es) && Sight(py, v).Sighted?
    ensures Covered(Slots(py, es), Sight(py, v).key, Sight(py, v).severity, today) <==>
      exists k | 0 <= k < |es| :: Excuses(py, es[k], v, today)
  {
    var slots, s := Slots(py, es), Sight(py, v);
    SightMeans(py, v);
    forall k | 0 <= k < |es| ensures Covers(slots[k], s.key, s.severity, today) <==> Excuses(py, es[k], v, today) {
      OneCovers(py, es[k], v, today);
    }
  }

  lemma {:induction false} OneCovers(py: Python, e: Entry, v: Vuln, today: int)
    requires Sight(py, v).Sighted? && EntryOk(py, e)
    ensures Covers(SlotOf(py, e), Sight(py, v).key, Sight(py, v).severity, today) <==> Excuses(py, e, v, today)
  {
    SightMeans(py, v);
    EntryMeans(py, e);
  }

  /** The verdict of the scan is that every grave tuple is excused. */
  lemma {:induction false} PassesMeans(py: Python, audit: Json, text: string, today: int)
    ensures Passes(py, audit, text, today) <==>
      Parse(text).Some? && !ReportRaises(audit) && Excused(py, Parse(text).value, Yielded(py, audit), today)
  {
    if Parse(text).Some? && !ReportRaises(audit) {
      ListMeans(py, Parse(text).value);
      if ListInOrder(py, Parse(text).value) { ClearedMeans(py, Parse(text).value, Yielded(py, audit), today); }
    }
  }

  lemma {:induction false} ClearedMeans(py: Python, es: seq<Entry>, vulns: seq<Vuln>, today: int)
    requires ListInOrder(py, es)
    ensures Cleared(Slots(py, es), Sightings(py, vulns), today) <==> Excused(py, es, vulns, today)
  {
    NamedMeans(py, vulns);
    if forall i | 0 <= i < |vulns| && Grave(py, vulns[i]) :: AdvisoryText(py, vulns[i]) != "" {
      forall i | 0 <= i < |vulns| { TupleMeans(py, es, vulns, i, today); }
    }
  }

  lemma {:induction false} NamedMeans(py: Python, vulns: seq<Vuln>)
    ensures var ss := Sightings(py, vulns);
      (forall i | 0 <= i < |ss| :: !ss[i].Raises? && !ss[i].Anonymous?) <==>
      ((forall i | 0 <= i < |vulns| :: Truthy(vulns[i].severity) ==> vulns[i].severity.JStr?) &&
       (forall i | 0 <= i < |vulns| && Grave(py, vulns[i]) :: AdvisoryText(py, vulns[i]) != ""))
  {
    var ss := Sightings(py, vulns);
    forall i | 0 <= i < |vulns|
      ensures ss[i].Raises? <==> Truthy(vulns[i].severity) && !vulns[i].severity.JStr?
      ensures ss[i].Anonymous? <==> Grave(py, vulns[i]) && AdvisoryText(py, vulns[i]) == ""
    {
      SightMeans(py, vulns[i]);
    }
  }

  lemma {:induction false} TupleMeans(py: Python, es: seq<Entry>, vulns: seq<Vuln>, i: nat, today: int)
    requires ListInOrder(py, es) && i < |vulns|
    requires forall j | 0 <= j < |vulns| && Grave(py, vulns[j]) :: AdvisoryText(py, vulns[j]) != ""
    ensures var ss := Sightings(py, vulns);
      && (IsFirst(ss, i) <==> FirstGrave(py, vulns, i))
      && (IsFirst(ss, i) ==> (Covered(Slots(py, es), ss[i].key, ss[i].severity, today) <==>
                              exists k | 0 <= k < |es| :: Excuses(py, es[k], vulns[i], today)))
  {
    FirstMeans(py, vulns, i);
    if IsFirst(Sightings(py, vulns), i) { CoverMeans(py, es, vulns[i], today); }
  }

  /** The exit code; a raised exception ends the program with 1 as well, whichever of its parts raises it. */
  method RunGate(py: Python, audit: Json, text: string, today: int) returns (code: nat, errors: seq<GateError>)
    ensures code == 0 <==> Passes(py, audit, text, today)
    ensures code == 0 <==>
      Parse(text).Some? && !ReportRaises(audit) && Excused(py, Parse(text).value, Yielded(py, audit), today)
    ensures code <= 1
  {
    PassesMeans(py, audit, text, today);
    errors := [];
    var exceptions := ParseExceptions(text);
    if exceptions.None? {
      return 1, errors;
    }
    var index;
    index, errors := BuildIndex(py, exceptions.value);
    var vulns, raisedLate := IterVulns(py, audit);
    var missing, expired, more, raised := Scan(py, index, vulns, today);
    if raised || raisedLate {
      return 1, errors;
    }
    ghost var slots, ss := Slots(py, exceptions.value), Sightings(py, vulns);
    if AllIndexed(slots) { ClearedExact(slots, index, ss, today); }
    errors := errors + more;
    if |missing| > 0 {
      errors := errors + [Missing(missing)];
    }
    if |expired| > 0 {
      errors := errors + [Expired(expired)];
    }
    return if |errors| > 0 then 1 else 0, errors;
  }

  lemma LookedUp(slots: seq<Option<(Key, Indexed)>>, index: map<Key, Indexed>, key: Key, severity: string, today: int)
    requires AllIndexed(slots) && Indexes(slots, index)
    ensures Covered(slots, key, severity, today) <==>
      key in index && Agrees(index[key], severity) && !(index[key].expires < today)
  {
    if key in index {
      var i :| 0 <= i < |slots| && slots[i] == Some((key, index[key]));
      if Covered(slots, key, severity, today) {
        var j :| 0 <= j < |slots| && Covers(slots[j], key, severity, today);
        assert i == j;
      } else {
        assert !Covers(slots[i], key, severity, today);
      }
    }
  }

  /** The three lists of the scan are empty exactly when every key is covered. */
  lemma ClearedExact(slots: seq<Option<(Key, Indexed)>>, index: map<Key, Indexed>, ss: seq<Sighting>, today: int)
    requires AllIndexed(slots) && Indexes(slots, index) && forall i | 0 <= i < |ss| :: !ss[i].Raises?
    ensures Cleared(slots, ss, today) <==>
      MissingKeys(index, ss) == [] && ExpiredKeys(index, today, ss) == [] && NoneReported(index, ss, |ss|)
  {
    forall i | 0 <= i < |ss| && IsFirst(ss, i)
      ensures Covered(slots, ss[i].key, ss[i].severity, today) <==>
        ss[i].key in index && Agrees(index[ss[i].key], ss[i].severity) && !(index[ss[i].key].expires < today)
    {
      LookedUp(slots, index, ss[i].key, ss[i].severity, today);
    }
    assert ss[..|ss|] == ss;
    EmptyExact(Unexcepted(index), ss, |ss|);
    EmptyExact(Overdue(index, today), ss, |ss|);
    if NoneReported(index, ss, |ss|) && MissingKeys(index, ss) == [] && ExpiredKeys(index, today, ss) == [] {
      forall i | 0 <= i < |ss|
        ensures !ss[i].Anonymous? && (IsFirst(ss, i) ==> Covered(slots, ss[i].key, ss[i].severity, today))
      {
        assert !Reported(index, ss, i);
        if IsFirst(ss, i) { assert !Unexcepted(index)(ss[i].key) && !Overdue(index, today)(ss[i].key); }
      }
    }
  }

  lemma {:induction false} EmptyExact(p: Key -> bool, ss: seq<Sighting>, n: nat)
    requires n <= |ss|
    ensures Filter(p, FirstKeys(ss[..n])) == [] <==> forall i | 0 <= i < n && IsFirst(ss, i) :: !p(ss[i].key)
  {
    if n > 0 {
      EmptyExact(p, ss, n - 1);
      FirstSnoc(ss, n - 1);
      if IsFirst(ss, n - 1) { FilterSnoc(p, FirstKeys(ss[..n - 1]), ss[n - 1].key); }
    }
  }

  // ----- what follows -----

  /** Each key is listed at most once, as missing or as expired. */
  lemma ListedOnce(index: map<Key, Indexed>, today: int, ss: seq<Sighting>)
    ensures var listed := MissingKeys(index, ss) + ExpiredKeys(index, today, ss);
            forall i, j | 0 <= i < j < |listed| :: listed[i] != listed[j]
  {
    var m, x := MissingKeys(index, ss), ExpiredKeys(index, today, ss);
    FirstKeysDiffer(ss);
    KeysDifferFilter((k: Key) => k, Unexcepted(index), FirstKeys(ss));
    KeysDifferFilter((k: Key) => k, Overdue(index, today), FirstKeys(ss));
    forall i, j | 0 <= i < |m| && 0 <= j < |x| ensures m[i] != x[j] {
      FilterIn(Unexcepted(index), FirstKeys(ss), m[i]);
      FilterIn(Overdue(index, today), FirstKeys(ss), x[j]);
    }
  }

  /** A key is listed as missing when it is sighted and has no exception, as expired when its exception has expired. */
  lemma ListedAre(index: map<Key, Indexed>, today: int, ss: seq<Sighting>, k: Key)
    ensures k in MissingKeys(index, ss) <==> k !in index && exists i | 0 <= i < |ss| :: ss[i].Sighted? && ss[i].key == k
    ensures k in ExpiredKeys(index, today, ss) <==>
      k in index && index[k].expires < today && exists i | 0 <= i < |ss| :: ss[i].Sighted? && ss[i].key == k
  {
    FirstKeysAre(ss);
    FilterIn(Unexcepted(index), FirstKeys(ss), k);
    FilterIn(Overdue(index, today), FirstKeys(ss), k);
  }

  lemma {:induction false} FirstKeysDiffer(ss: seq<Sighting>)
    ensures KeysDiffer((k: Key) => k, FirstKeys(ss))
  {
    if ss != [] { FirstKeysDiffer(ss[..|ss| - 1]); }
  }

  /** Appending tuples never turns a failure into a pass. */
  lemma MoreNeverHelps(slots: seq<Option<(Key, Indexed)>>, ss: seq<Sighting>, more: seq<Sighting>, today: int)
    requires Cleared(slots, ss + more, today)
    ensures Cleared(slots, ss, today)
  {
    var all := ss + more;
    forall i | 0 <= i < |ss|
      ensures !ss[i].Raises? && !ss[i].Anonymous?
      ensures IsFirst(ss, i) ==> Covered(slots, ss[i].key, ss[i].severity, today)
    {
      assert all[i] == ss[i];
      if IsFirst(ss, i) { assert IsFirst(all, i); }
    }
  }

  /** Report long goes on where report short ends: with more packages, or, if short has no package, also with more
      advisories. */
  ghost predicate GoesOn(short: Json, long: Json) {
    && short.JObj? && long.JObj?
    && EntriesOf(short, "advisories") <= EntriesOf(long, "advisories")
    && EntriesOf(short, "vulnerabilities") <= EntriesOf(long, "vulnerabilities")
    && (EntriesOf(short, "vulnerabilities") == [] || EntriesOf(short, "advisories") == EntriesOf(long, "advisories"))
  }

  /** So a report that goes on never passes where the shorter one fails. */
  lemma LongerNeverPasses(py: Python, short: Json, long: Json, text: string, today: int)
    requires GoesOn(short, long) && Passes(py, long, text, today)
    ensures Passes(py, short, text, today)
  {
    YieldedGoesOn(py, short, long);
    ClearedGoesOn(py, Slots(py, Parse(text).value), Yielded(py, short), Yielded(py, long), today);
  }

  lemma ClearedGoesOn(py: Python, slots: seq<Option<(Key, Indexed)>>, vulns: seq<Vuln>, more: seq<Vuln>, today: int)
    requires vulns <= more && Cleared(slots, Sightings(py, more), today)
    ensures Cleared(slots, Sightings(py, vulns), today)
  {
    var ss, all := Sightings(py, vulns), Sightings(py, more);
    assert all == ss + all[|ss|..];
    MoreNeverHelps(slots, ss, all[|ss|..], today);
  }

  lemma YieldedGoesOn(py: Python, short: Json, long: Json)
    requires GoesOn(short, long) && !ReportRaises(long)
    ensures !ReportRaises(short) && Yielded(py, short) <= Yielded(py, long)
  {
    CalmPrefix(AdvisoryRaises, EntriesOf(short, "advisories"), EntriesOf(long, "advisories"));
    CalmPrefix(VulnerabilityRaises, EntriesOf(short, "vulnerabilities"), EntriesOf(long, "vulnerabilities"));
    YieldsAll(py, short);
    YieldsAll(py, long);
    TuplesGoOn(py, EntriesOf(short, "advisories"), EntriesOf(long, "advisories"),
               EntriesOf(short, "vulnerabilities"), EntriesOf(long, "vulnerabilities"));
  }

  lemma {:induction false} TuplesGoOn(py: Python, a: seq<(string, Json)>, b: seq<(string, Json)>,
                                      v: seq<(string, Json)>, w: seq<(string, Json)>)
    requires a <= b && v <= w && (v == [] || a == b)
    requires !AnyRaises(AdvisoryRaises, a) && !AnyRaises(AdvisoryRaises, b)
    requires !AnyRaises(VulnerabilityRaises, v) && !AnyRaises(VulnerabilityRaises, w)
    ensures AdvisoryTuples(py, a) + VulnerabilityTuples(v) <= AdvisoryTuples(py, b) + VulnerabilityTuples(w)
  {
    TuplesPrefix(v, w);
    AdvisoriesPrefix(py, a, b);
    ConcatPrefix(AdvisoryTuples(py, a), AdvisoryTuples(py, b), VulnerabilityTuples(v), VulnerabilityTuples(w));
  }

  lemma AdvisoriesPrefix(py: Python, a: seq<(string, Json)>, b: seq<(string, Json)>)
    requires a <= b && !AnyRaises(AdvisoryRaises, a) && !AnyRaises(AdvisoryRaises, b)
    ensures AdvisoryTuples(py, a) <= AdvisoryTuples(py, b)
  {
  }

  lemma ConcatPrefix(a: seq<Vuln>, b: seq<Vuln>, v: seq<Vuln>, w: seq<Vuln>)
    requires a <= b && v <= w && (v == [] || a == b)
    ensures a + v <= b + w
  {
  }

  lemma CalmPrefix(raises: Json -> bool, a: seq<(string, Json)>, b: seq<(string, Json)>)
    requires a <= b && !AnyRaises(raises, b)
    ensures !AnyRaises(raises, a)
  {
    forall i | 0 <= i < |a| ensures !raises(a[i].1) { assert b[i] == a[i]; }
  }

  lemma {:induction false} TuplesPrefix(a: seq<(string, Json)>, b: seq<(string, Json)>)
    requires a <= b && !AnyRaises(VulnerabilityRaises, b) && !AnyRaises(VulnerabilityRaises, a)
    ensures VulnerabilityTuples(a) <= VulnerabilityTuples(b)
    decreases |b|
  {
    if |a| < |b| {
      CalmPrefix(VulnerabilityRaises, b[..|b| - 1], b);
      TuplesPrefix(a, b[..|b| - 1]);
    } else {
      assert a == b;
    }
  }

  /** Only at the end: a tuple that comes earlier can turn a failure into a pass. */
  lemma EarlierTupleHelps(key: Key)
    ensures var slots := [Some((key, Indexed("high", 1)))];
      && !Cleared(slots, [Sighted(key, "critical")], 0)
      && Cleared(slots, [Sighted(key, "high")] + [Sighted(key, "critical")], 0)
  {
    var slots, late := [Some((key, Indexed("high", 1)))], [Sighted(key, "critical")];
    var both := [Sighted(key, "high"), Sighted(key, "critical")];
    assert IsFirst(late, 0) && "high" != "critical";
    assert Covers(slots[0], key, "high", 0);
    assert both[0].Sighted? && both[0].key == both[1].key;
    assert both == [Sighted(key, "high")] + late;
  }

  /** A report that passes on one day passes on every earlier day. */
  lemma PassedBefore(py: Python, audit: Json, text: string, today: int, earlier: int)
    requires Passes(py, audit, text, today) && earlier <= today
    ensures Passes(py, audit, text, earlier)
  {
    var slots, ss := Slots(py, Parse(text).value), Sightings(py, Yielded(py, audit));
    forall i | 0 <= i < |ss| && IsFirst(ss, i) ensures Covered(slots, ss[i].key, ss[i].severity, earlier) {
      var j :| 0 <= j < |slots| && Covers(slots[j], ss[i].key, ss[i].severity, today);
      assert Covers(slots[j], ss[i].key, ss[i].severity, earlier);
    }
  }

  // ----- the seen filter -----

  /** Whether the scan ends without anything to report, with or without the test for keys already seen. */
  function Quiet(filtered: bool, index: map<Key, Indexed>, ss: seq<Sighting>, today: int): bool {
    if ss == [] then true
    else
      var n := |ss| - 1;
      var s := ss[n];
      Quiet(filtered, index, ss[..n], today) && !s.Raises? && !s.Anonymous?
      && (s.Sighted? && !(filtered && s.key in FirstKeys(ss[..n])) ==>
            s.key in index && Agrees(index[s.key], s.severity) && !(index[s.key].expires < today))
  }

  /** With the filter it is the scan of the gate. */
  lemma {:induction false} QuietIsCleared(slots: seq<Option<(Key, Indexed)>>, index: map<Key, Indexed>,
                                          ss: seq<Sighting>, today: int)
    requires AllIndexed(slots) && Indexes(slots, index)
    ensures Quiet(true, index, ss, today) <==> Cleared(slots, ss, today)
  {
    QuietExact(true, index, ss, today);
    forall i | 0 <= i < |ss| && IsFirst(ss, i)
      ensures Covered(slots, ss[i].key, ss[i].severity, today) <==>
        ss[i].key in index && Agrees(index[ss[i].key], ss[i].severity) && !(index[ss[i].key].expires < today)
    {
      LookedUp(slots, index, ss[i].key, ss[i].severity, today);
    }
  }

  /** A later tuple of a key whose exception names another severity. */
  predicate HiddenMismatch(index: map<Key, Indexed>, ss: seq<Sighting>, i: nat)
    requires i < |ss|
  {
    ss[i].Sighted? && !IsFirst(ss, i) && ss[i].key in index && !Agrees(index[ss[i].key], ss[i].severity)
  }

  lemma {:induction false} QuietExact(filtered: bool, index: map<Key, Indexed>, ss: seq<Sighting>, today: int)
    ensures Quiet(filtered, index, ss, today) <==>
      && (forall i | 0 <= i < |ss| :: !ss[i].Raises? && !ss[i].Anonymous?)
      && forall i | 0 <= i < |ss| && ss[i].Sighted? && (filtered ==> IsFirst(ss, i)) ::
           ss[i].key in index && Agrees(index[ss[i].key], ss[i].severity) && !(index[ss[i].key].expires < today)
  {
    if ss != [] {
      var n := |ss| - 1;
      QuietExact(filtered, index, ss[..n], today);
      assert forall i | 0 <= i < n :: ss[..n][i] == ss[i] && (IsFirst(ss[..n], i) <==> IsFirst(ss, i));
      FirstSnoc(ss, n);
      assert ss[..n + 1] == ss;
    }
  }

  lemma {:induction false} FirstOfKey(ss: seq<Sighting>, i: nat) returns (j: nat)
    requires i < |ss| && ss[i].Sighted?
    ensures j <= i && IsFirst(ss, j) && ss[j].key == ss[i].key
  {
    if IsFirst(ss, i) {
      j := i;
    } else {
      var l :| 0 <= l < i && ss[l].Sighted? && ss[l].key == ss[i].key;
      j := FirstOfKey(ss, l);
    }
  }

  /** Dropping the seen filter changes the verdict exactly when the scan is quiet with it and a later tuple of some
      key disagrees with the exception about the severity. */
  lemma {:induction false} SeenFilterExact(index: map<Key, Indexed>, ss: seq<Sighting>, today: int)
    ensures Quiet(false, index, ss, today) ==> Quiet(true, index, ss, today)
    ensures Quiet(true, index, ss, today) != Quiet(false, index, ss, today) <==>
      Quiet(true, index, ss, today) && exists i | 0 <= i < |ss| :: HiddenMismatch(index, ss, i)
  {
    QuietExact(true, index, ss, today);
    QuietExact(false, index, ss, today);
    if Quiet(true, index, ss, today) && forall i | 0 <= i < |ss| :: !HiddenMismatch(index, ss, i) {
      forall i | 0 <= i < |ss| && ss[i].Sighted?
        ensures ss[i].key in index && Agrees(index[ss[i].key], ss[i].severity) && !(index[ss[i].key].expires < today)
      {
        var j := FirstOfKey(ss, i);
        assert !HiddenMismatch(index, ss, i);
      }
    }
  }

  /** The verdict of a gate without the filter: every sighting must be covered, not only the first of its key. */
  ghost predicate PassesUnfiltered(py: Python, audit: Json, text: string, today: int) {
    && Parse(text).Some? && AllIndexed(Slots(py, Parse(text).value))
    && !ReportRaises(audit)
    && ClearedThroughout(Slots(py, Parse(text).value), Sightings(py, Yielded(py, audit)), today)
  }

  ghost predicate ClearedThroughout(slots: seq<Option<(Key, Indexed)>>, ss: seq<Sighting>, today: int) {
    && (forall i | 0 <= i < |ss| :: !ss[i].Raises? && !ss[i].Anonymous?)
    && forall i | 0 <= i < |ss| && ss[i].Sighted? :: Covered(slots, ss[i].key, ss[i].severity, today)
  }

  /** Sighting i is not the first of its key, and the exception of the key names another severity. */
  ghost predicate LaterMismatch(slots: seq<Option<(Key, Indexed)>>, ss: seq<Sighting>, i: nat) {
    && i < |ss| && ss[i].Sighted? && !IsFirst(ss, i)
    && exists k | 0 <= k < |slots| :: slots[k].Some? && slots[k].value.0 == ss[i].key && !Agrees(slots[k].value.1, ss[i].severity)
  }

  /** The exit code with the filter differs from that without it exactly when the gate passes and a later tuple of some
      key disagrees with its exception about the severity. */
  lemma FilterDecides(py: Python, audit: Json, text: string, today: int)
    ensures PassesUnfiltered(py, audit, text, today) ==> Passes(py, audit, text, today)
    ensures Passes(py, audit, text, today) ==>
      var slots, ss := Slots(py, Parse(text).value), Sightings(py, Yielded(py, audit));
      PassesUnfiltered(py, audit, text, today) <==> forall i: nat :: !LaterMismatch(slots, ss, i)
  {
    if Passes(py, audit, text, today) {
      LaterDecides(Slots(py, Parse(text).value), Sightings(py, Yielded(py, audit)), today);
    }
  }

  lemma {:induction false} LaterDecides(slots: seq<Option<(Key, Indexed)>>, ss: seq<Sighting>, today: int)
    requires AllIndexed(slots) && Cleared(slots, ss, today)
    ensures ClearedThroughout(slots, ss, today) <==> forall i: nat :: !LaterMismatch(slots, ss, i)
  {
    forall i: nat | i < |ss| && ss[i].Sighted?
      ensures Covered(slots, ss[i].key, ss[i].severity, today) <==> !LaterMismatch(slots, ss, i)
    {
      var j := FirstOfKey(ss, i);
      var k :| 0 <= k < |slots| && Covers(slots[k], ss[j].key, ss[j].severity, today);
      forall l | 0 <= l < |slots| && slots[l].value.0 == ss[i].key ensures l == k { }
      if Agrees(slots[k].value.1, ss[i].severity) {
        assert Covers(slots[k], ss[i].key, ss[i].severity, today);
      } else {
        assert slots[k].Some? && slots[k].value.0 == ss[i].key;
        if IsFirst(ss, i) { OneFirst(ss, i, j); }
      }
    }
  }

  lemma OneFirst(ss: seq<Sighting>, i: nat, j: nat)
    requires j <= i < |ss| && IsFirst(ss, i) && IsFirst(ss, j) && ss[i].key == ss[j].key
    ensures i == j
  {
  }

  /** With equal severities for equal keys the filter never matters. */
  lemma {:induction false} SeenFilterHarmless(index: map<Key, Indexed>, ss: seq<Sighting>, today: int)
    requires forall i, j | 0 <= i < |ss| && 0 <= j < |ss| && ss[i].Sighted? && ss[j].Sighted? && ss[i].key == ss[j].key ::
      ss[i].severity == ss[j].severity
    ensures Quiet(true, index, ss, today) == Quiet(false, index, ss, today)
  {
    SeenFilterExact(index, ss, today);
    QuietExact(true, index, ss, today);
    if i :| 0 <= i < |ss| && HiddenMismatch(index, ss, i) {
      var j := FirstOfKey(ss, i);
      assert ss[j].severity == ss[i].severity;
    }
  }

  /** The same package and advisory, first high and then critical, and an exception for high. */
  lemma SeenFilterHides(key: Key)
    ensures var ss := [Sighted(key, "high"), Sighted(key, "critical")];
            Quiet(true, map[key := Indexed("high", 1)], ss, 0) && !Quiet(false, map[key := Indexed("high", 1)], ss, 0)
  {
    var ss := [Sighted(key, "high"), Sighted(key, "critical")];
    QuietExact(true, map[key := Indexed("high", 1)], ss, 0);
    QuietExact(false, map[key := Indexed("high", 1)], ss, 0);
    assert ss[0].Sighted? && ss[0].key == ss[1].key;
    assert "high" != "critical";
  }
}
