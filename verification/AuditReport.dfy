/** The audit report: the vulnerabilities that iter_vulns yields from either of its two shapes. */
module AuditReport {
  import opened Relational

  /** A parsed document; the keys of an object are distinct and in their order. */
  datatype Json = JNull | JBool(b: bool) | JNum(r: real) | JStr(s: string) | JArr(items: seq<Json>) | JObj(fields: seq<(string, Json)>)

  /** What the Python runtime brings along. */
  datatype Python = Python(lower: string -> string, show: Json -> string, parseDate: string -> Option<int>) {
    /** str(j) */
    function Str(j: Json): string { if j.JStr? then j.s else show(j) }
  }

  predicate Truthy(j: Json) {
    match j
    case JNull => false
    case JBool(b) => b
    case JNum(r) => r != 0.0
    case JStr(s) => s != ""
    case JArr(items) => items != []
    case JObj(fields) => fields != []
  }

  function Or(a: Json, b: Json): Json { if Truthy(a) then a else b }

  /** dict.get: the value of a key, or None. */
  function Get(fields: seq<(string, Json)>, k: string): Json {
    if fields == [] then JNull else if fields[0].0 == k then fields[0].1 else Get(fields[1..], k)
  }

  predicate Has(fields: seq<(string, Json)>, k: string) { exists i | 0 <= i < |fields| :: fields[i].0 == k }

  /** j[0] on what may be no list; None where Python raises. */
  function FirstOf(j: Json): Option<Json> {
    match j
    case JArr(items) => if items == [] then None else Some(items[0])
    case JStr(s) => if s == "" then None else Some(JStr([s[0]]))
    case _ => None
  }

  /** The most stable identifier there is; None where Python raises. */
  function PickAdvisoryId(py: Python, a: seq<(string, Json)>): Option<Json> {
    var stable := Or(Get(a, "github_advisory_id"), Get(a, "url"));
    if Truthy(stable) then Some(stable)
    else
      var cve := FirstOf(Or(Get(a, "cves"), JArr([JNull])));
      if cve.None? then None
      else if Truthy(cve.value) then cve
      else
        var id := if Get(a, "id") == JNull then JNull else JStr(py.Str(Get(a, "id")));
        Some(Or(id, Or(Get(a, "title"), Or(Get(a, "advisory"), Get(a, "overview")))))
  }

  /** What is yielded of a vulnerability, its title aside. */
  datatype Vuln = Vuln(name: Json, severity: Json, advisory: Json)

  // ----- what raises -----

  /** An advisory that is no object raises, and one without advisory id and URL whose cves is there but has no first
      element. */
  predicate AdvisoryRaises(a: Json) {
    a.JObj? ==>
      && !Truthy(Get(a.fields, "github_advisory_id")) && !Truthy(Get(a.fields, "url"))
      && Truthy(Get(a.fields, "cves")) && !Get(a.fields, "cves").JArr? && !Get(a.fields, "cves").JStr?
  }

  function ViaOf(fields: seq<(string, Json)>): Json { if Has(fields, "via") then Get(fields, "via") else JArr([]) }

  function ItemsOf(via: Json): seq<Json> {
    match via
    case JArr(items) => items
    case JStr(_) => [via]
    case _ => []
  }

  predicate Contributes(item: Json) { item.JObj? || item.JStr? }

  function Identifier(item: Json): Json {
    match item
    case JObj(f) => Or(Get(f, "github_advisory_id"), Or(Get(f, "url"), Or(Get(f, "source"), Or(Get(f, "title"), Get(f, "name")))))
    case _ => item
  }

  function Title(item: Json): Json {
    match item
    case JObj(f) => Or(Get(f, "title"), Or(Get(f, "url"), Or(Get(f, "advisory"), Get(f, "source"))))
    case _ => item
  }

  /** A title that cannot be joined. */
  predicate Unjoinable(item: Json) { item.JObj? && Truthy(Title(item)) && !Title(item).JStr? }

  predicate AnyUnjoinable(items: seq<Json>) { exists i | 0 <= i < |items| :: Unjoinable(items[i]) }

  predicate VulnerabilityRaises(v: Json) { v.JObj? ==> AnyUnjoinable(ItemsOf(ViaOf(v.fields))) }

  predicate AnyRaises(raises: Json -> bool, entries: seq<(string, Json)>) {
    exists i | 0 <= i < |entries| :: raises(entries[i].1)
  }

  function EntriesOf(data: Json, k: string): seq<(string, Json)> {
    if data.JObj? && Get(data.fields, k).JObj? then Get(data.fields, k).fields else []
  }

  /** The generator raises on a report that is no object, and on any entry of its two parts that does. */
  predicate ReportRaises(data: Json) {
    || !data.JObj?
    || AnyRaises(AdvisoryRaises, EntriesOf(data, "advisories"))
    || AnyRaises(VulnerabilityRaises, EntriesOf(data, "vulnerabilities"))
  }

  /** How many entries come before the first that raises. */
  function Calm(raises: Json -> bool, entries: seq<(string, Json)>): (n: nat)
    ensures n <= |entries| && (forall i | 0 <= i < n :: !raises(entries[i].1)) && (n < |entries| ==> raises(entries[n].1))
    ensures n < |entries| <==> AnyRaises(raises, entries)
  {
    if entries == [] || raises(entries[0].1) then 0 else 1 + Calm(raises, entries[1..])
  }

  // ----- what is yielded -----

  function AdvisoryTuple(py: Python, a: Json): Vuln
    requires !AdvisoryRaises(a)
  {
    PickRaises(py, a.fields);
    Vuln(Or(Get(a.fields, "module_name"), Get(a.fields, "name")), Get(a.fields, "severity"), PickAdvisoryId(py, a.fields).value)
  }

  /** One tuple per advisory. */
  function AdvisoryTuples(py: Python, entries: seq<(string, Json)>): seq<Vuln>
    requires forall i | 0 <= i < |entries| :: !AdvisoryRaises(entries[i].1)
  {
    seq(|entries|, i requires 0 <= i < |entries| => AdvisoryTuple(py, entries[i].1))
  }

  function TupleOf(name: string, severity: Json): Json -> Vuln { (id: Json) => Vuln(JStr(name), severity, id) }

  /** One tuple per identifier there is. */
  function PackageTuples(name: string, v: Json): seq<Vuln>
    requires v.JObj?
  {
    Map(TupleOf(name, Get(v.fields, "severity")), Filter(Truthy, Map(Identifier, Filter(Contributes, ItemsOf(ViaOf(v.fields))))))
  }

  function VulnerabilityTuples(entries: seq<(string, Json)>): seq<Vuln>
    requires forall i | 0 <= i < |entries| :: !VulnerabilityRaises(entries[i].1)
  {
    if entries == [] then []
    else
      var e := entries[|entries| - 1];
      assert !VulnerabilityRaises(e.1);
      VulnerabilityTuples(entries[..|entries| - 1]) + PackageTuples(e.0, e.1)
  }

  /** The tuples yielded before the generator ends or raises. */
  function Yielded(py: Python, data: Json): seq<Vuln> {
    var first, second := EntriesOf(data, "advisories"), EntriesOf(data, "vulnerabilities");
    var n, m := Calm(AdvisoryRaises, first), Calm(VulnerabilityRaises, second);
    AdvisoryTuples(py, first[..n]) + if n < |first| then [] else VulnerabilityTuples(second[..m])
  }

  lemma YieldsAll(py: Python, data: Json)
    requires !ReportRaises(data)
    ensures Yielded(py, data)
         == AdvisoryTuples(py, EntriesOf(data, "advisories")) + VulnerabilityTuples(EntriesOf(data, "vulnerabilities"))
  {
    var first, second := EntriesOf(data, "advisories"), EntriesOf(data, "vulnerabilities");
    var n, m := Calm(AdvisoryRaises, first), Calm(VulnerabilityRaises, second);
    assert first[..n] == first && second[..m] == second;
  }

  // ----- the generator -----

  method CollectVia(via: Json) returns (advisories: seq<Json>, titles: seq<Json>)
    ensures advisories == Map(Identifier, Filter(Contributes, ItemsOf(via)))
    ensures titles == Map(Title, Filter(Contributes, ItemsOf(via)))
  {
    if via.JArr? {
      advisories, titles := CollectItems(via.items);
    } else if via.JStr? {
      advisories, titles := CollectItems([via]);
    } else {
      advisories, titles := [], [];
    }
  }

  method CollectItems(items: seq<Json>) returns (advisories: seq<Json>, titles: seq<Json>)
    ensures advisories == Map(Identifier, Filter(Contributes, items))
    ensures titles == Map(Title, Filter(Contributes, items))
  {
    advisories, titles := [], [];
    for i := 0 to |items|
      invariant advisories == Map(Identifier, Filter(Contributes, items[..i]))
      invariant titles == Map(Title, Filter(Contributes, items[..i]))
    {
      KeptSnoc(items, i);
      var ids, texts := CollectItem(items[i]);
      advisories, titles := advisories + ids, titles + texts;
    }
    assert items[..|items|] == items;
  }

  method CollectItem(item: Json) returns (advisories: seq<Json>, titles: seq<Json>)
    ensures advisories == if Contributes(item) then [Identifier(item)] else []
    ensures titles == if Contributes(item) then [Title(item)] else []
  {
    match item
    case JObj(_) =>
      return [Identifier(item)], [Title(item)];
    case JStr(_) =>
      return [item], [item];
    case _ =>
      return [], [];
  }

  lemma KeptSnoc(items: seq<Json>, i: nat)
    requires i < |items|
    ensures Map(Identifier, Filter(Contributes, items[..i + 1]))
         == Map(Identifier, Filter(Contributes, items[..i])) + if Contributes(items[i]) then [Identifier(items[i])] else []
    ensures Map(Title, Filter(Contributes, items[..i + 1]))
         == Map(Title, Filter(Contributes, items[..i])) + if Contributes(items[i]) then [Title(items[i])] else []
  {
    assert items[..i + 1] == items[..i] + [items[i]];
    FilterSnoc(Contributes, items[..i], items[i]);
    MapSnoc(Identifier, Filter(Contributes, items[..i]), items[i]);
    MapSnoc(Title, Filter(Contributes, items[..i]), items[i]);
  }

  /** The tuples of one package, or None where joining the titles raises. */
  method YieldOne(name: string, v: Json) returns (vs: Option<seq<Vuln>>)
    ensures vs.None? <==> VulnerabilityRaises(v)
    ensures vs.Some? ==> vs.value == PackageTuples(name, v)
  {
    if !v.JObj? {
      return None;
    }
    var severity := Get(v.fields, "severity");
    var via := if Has(v.fields, "via") then Get(v.fields, "via") else JArr([]);
    var advisories, titles := CollectVia(via);
    var bad := Unjoined(titles);
    TitlesJoined(ItemsOf(via), titles);
    if bad {
      return None;
    }
    var out: seq<Vuln> := [];
    for i := 0 to |advisories|
      invariant out == Map(TupleOf(name, severity), Filter(Truthy, advisories[..i]))
    {
      assert advisories[..i + 1] == advisories[..i] + [advisories[i]];
      FilterSnoc(Truthy, advisories[..i], advisories[i]);
      MapSnoc(TupleOf(name, severity), Filter(Truthy, advisories[..i]), advisories[i]);
      if Truthy(advisories[i]) {
        out := out + [Vuln(JStr(name), severity, advisories[i])];
      }
    }
    assert advisories[..|advisories|] == advisories;
    return Some(out);
  }

  /** Whether joining the titles that are there raises. */
  method Unjoined(titles: seq<Json>) returns (bad: bool)
    ensures bad <==> exists j | 0 <= j < |titles| :: Truthy(titles[j]) && !titles[j].JStr?
  {
    for i := 0 to |titles|
      invariant forall j | 0 <= j < i :: Truthy(titles[j]) ==> titles[j].JStr?
    {
      if Truthy(titles[i]) && !titles[i].JStr? {
        return true;
      }
    }
    return false;
  }

  lemma {:induction false} TitlesJoined(items: seq<Json>, titles: seq<Json>)
    requires titles == Map(Title, Filter(Contributes, items))
    ensures (exists j | 0 <= j < |titles| :: Truthy(titles[j]) && !titles[j].JStr?) <==> AnyUnjoinable(items)
  {
    var kept := Filter(Contributes, items);
    if j :| 0 <= j < |titles| && Truthy(titles[j]) && !titles[j].JStr? {
      FilterIn(Contributes, items, kept[j]);
      assert kept[j] in kept;
      var i :| 0 <= i < |items| && items[i] == kept[j];
      assert Unjoinable(items[i]);
    }
    if i :| 0 <= i < |items| && Unjoinable(items[i]) {
      FilterIn(Contributes, items, items[i]);
      var j :| 0 <= j < |kept| && kept[j] == items[i];
      assert titles[j] == Title(items[i]);
    }
  }

  method YieldAdvisories(py: Python, entries: seq<(string, Json)>) returns (vulns: seq<Vuln>, raised: bool)
    ensures var n := Calm(AdvisoryRaises, entries); vulns == AdvisoryTuples(py, entries[..n]) && (raised <==> n < |entries|)
  {
    vulns, raised := [], false;
    for i := 0 to |entries|
      invariant i <= Calm(AdvisoryRaises, entries) && vulns == AdvisoryTuples(py, entries[..i])
    {
      var a := entries[i].1;
      if !a.JObj? {
        return vulns, true;
      }
      var id := PickAdvisoryId(py, a.fields);
      PickRaises(py, a.fields);
      if id.None? {
        return vulns, true;
      }
      vulns := vulns + [Vuln(Or(Get(a.fields, "module_name"), Get(a.fields, "name")), Get(a.fields, "severity"), id.value)];
    }
  }

  method YieldVulnerabilities(entries: seq<(string, Json)>) returns (vulns: seq<Vuln>, raised: bool)
    ensures var n := Calm(VulnerabilityRaises, entries); vulns == VulnerabilityTuples(entries[..n]) && (raised <==> n < |entries|)
  {
    vulns, raised := [], false;
    for i := 0 to |entries|
      invariant i <= Calm(VulnerabilityRaises, entries) && vulns == VulnerabilityTuples(entries[..i])
    {
      var vs := YieldOne(entries[i].0, entries[i].1);
      if vs.None? {
        return vulns, true;
      }
      PackageSnoc(entries, i);
      vulns := vulns + vs.value;
    }
  }

  lemma {:induction false} PackageSnoc(entries: seq<(string, Json)>, i: nat)
    requires i < |entries| && forall j | 0 <= j <= i :: !VulnerabilityRaises(entries[j].1)
    ensures VulnerabilityTuples(entries[..i + 1]) == VulnerabilityTuples(entries[..i]) + PackageTuples(entries[i].0, entries[i].1)
  {
    assert entries[..i + 1][..i] == entries[..i];
  }

  /** One tuple per advisory, then one per identifier of each vulnerable package, in their order, up to where the
      report raises. */
  method IterVulns(py: Python, data: Json) returns (vulns: seq<Vuln>, raised: bool)
    ensures raised <==> ReportRaises(data)
    ensures vulns == Yielded(py, data)
  {
    vulns, raised := [], false;
    if !data.JObj? {
      return [], true;
    }
    var advisories := Get(data.fields, "advisories");
    if advisories.JObj? {
      vulns, raised := YieldAdvisories(py, advisories.fields);
      if raised {
        return;
      }
    }
    var vulnerabilities := Get(data.fields, "vulnerabilities");
    if vulnerabilities.JObj? {
      var more;
      more, raised := YieldVulnerabilities(vulnerabilities.fields);
      vulns := vulns + more;
    }
  }

  // ----- identifiers -----

  /** Choosing an identifier raises exactly when there is neither an advisory id nor a URL, and cves is something that
      is there but has no first element. */
  lemma {:induction false} PickRaises(py: Python, a: seq<(string, Json)>)
    ensures PickAdvisoryId(py, a).None? <==> AdvisoryRaises(JObj(a))
  {
  }

  /** The places an identifier is looked for. */
  function Candidates(py: Python, a: seq<(string, Json)>): seq<Json>
    requires !AdvisoryRaises(JObj(a))
  {
    var cves, id := Get(a, "cves"), Get(a, "id");
    [Get(a, "github_advisory_id"), Get(a, "url"),
     match cves
     case JArr(items) => if items == [] then JNull else items[0]
     case JStr(s) => if s == "" then JNull else JStr([s[0]])
     case _ => JNull,
     if id == JNull then JNull else JStr(py.Str(id)),
     Get(a, "title"), Get(a, "advisory"), Get(a, "overview")]
  }

  /** v is the first candidate that is there; without one it is the last. */
  ghost predicate IsFirstThere(cs: seq<Json>, v: Json) {
    exists i | 0 <= i < |cs| :: v == cs[i] && (forall j | 0 <= j < i :: !Truthy(cs[j])) && (Truthy(cs[i]) || i == |cs| - 1)
  }

  lemma {:induction false} OneFirstThere(cs: seq<Json>, v: Json, w: Json)
    requires IsFirstThere(cs, v) && IsFirstThere(cs, w)
    ensures v == w
  {
    var i :| 0 <= i < |cs| && v == cs[i] && (forall j | 0 <= j < i :: !Truthy(cs[j])) && (Truthy(cs[i]) || i == |cs| - 1);
    var k :| 0 <= k < |cs| && w == cs[k] && (forall j | 0 <= j < k :: !Truthy(cs[j])) && (Truthy(cs[k]) || k == |cs| - 1);
    assert i == k;
  }

  lemma FirstThereOr(a: Json, cs: seq<Json>, v: Json)
    requires cs != [] && IsFirstThere(cs, v)
    ensures IsFirstThere([a] + cs, Or(a, v))
  {
    var all := [a] + cs;
    if Truthy(a) {
      assert Or(a, v) == all[0];
    } else {
      var i :| 0 <= i < |cs| && v == cs[i] && (forall j | 0 <= j < i :: !Truthy(cs[j])) && (Truthy(cs[i]) || i == |cs| - 1);
      assert all[i + 1] == v && forall j | 0 < j < i + 1 :: all[j] == cs[j - 1];
    }
  }

  lemma LastThere(a: Json)
    ensures IsFirstThere([a], a)
  {
    assert [a][0] == a;
  }

  /** The identifier of an advisory is the first candidate that is there. */
  lemma PickFirst(py: Python, a: seq<(string, Json)>)
    requires !AdvisoryRaises(JObj(a))
    ensures PickAdvisoryId(py, a).Some? && IsFirstThere(Candidates(py, a), PickAdvisoryId(py, a).value)
  {
    var cs := Candidates(py, a);
    var i := if Truthy(cs[0]) then 0 else if Truthy(cs[1]) then 1 else if Truthy(cs[2]) then 2
             else if Truthy(cs[3]) then 3 else if Truthy(cs[4]) then 4 else if Truthy(cs[5]) then 5 else 6;
    assert PickAdvisoryId(py, a) == Some(cs[i]);
  }

  /** The name and the severity of an advisory. */
  lemma AdvisoryNamed(py: Python, a: Json)
    requires !AdvisoryRaises(a)
    ensures IsFirstThere([Get(a.fields, "module_name"), Get(a.fields, "name")], AdvisoryTuple(py, a).name)
    ensures AdvisoryTuple(py, a).severity == Get(a.fields, "severity")
    ensures IsFirstThere(Candidates(py, a.fields), AdvisoryTuple(py, a).advisory)
  {
    PickFirst(py, a.fields);
    LastThere(Get(a.fields, "name"));
    FirstThereOr(Get(a.fields, "module_name"), [Get(a.fields, "name")], Get(a.fields, "name"));
    assert [Get(a.fields, "module_name")] + [Get(a.fields, "name")] == [Get(a.fields, "module_name"), Get(a.fields, "name")];
  }

  /** What is there is everything but null, false, zero and what is empty. */
  lemma TruthyMeans(j: Json)
    ensures Truthy(j) <==> j !in {JNull, JBool(false), JNum(0.0), JStr(""), JArr([]), JObj([])}
  {
  }

  lemma {:induction false} GetMeans(fields: seq<(string, Json)>, k: string)
    ensures !Has(fields, k) ==> Get(fields, k) == JNull
    ensures forall i | 0 <= i < |fields| && fields[i].0 == k && (forall j | 0 <= j < i :: fields[j].0 != k) :: Get(fields, k) == fields[i].1
  {
    if fields != [] {
      var rest := fields[1..];
      GetMeans(rest, k);
      assert forall i | 0 <= i < |rest| :: rest[i] == fields[i + 1];
      if Has(rest, k) {
        var i :| 0 <= i < |rest| && rest[i].0 == k;
        assert fields[i + 1].0 == k;
      }
      forall i | 0 <= i < |fields| && fields[i].0 == k && (forall j | 0 <= j < i :: fields[j].0 != k) ensures Get(fields, k) == fields[i].1 {
        if i > 0 {
          assert fields[0].0 != k && rest[i - 1] == fields[i];
          assert forall j | 0 <= j < i - 1 :: rest[j] == fields[j + 1];
        }
      }
    }
  }

  // ----- the items of via -----

  /** The five places an item's identifier is looked for, and the four of its title. */
  function ItemCandidates(f: seq<(string, Json)>): seq<Json> {
    [Get(f, "github_advisory_id"), Get(f, "url"), Get(f, "source"), Get(f, "title"), Get(f, "name")]
  }

  function TitleCandidates(f: seq<(string, Json)>): seq<Json> {
    [Get(f, "title"), Get(f, "url"), Get(f, "advisory"), Get(f, "source")]
  }

  lemma ItemFirst(f: seq<(string, Json)>)
    ensures IsFirstThere(ItemCandidates(f), Identifier(JObj(f))) && IsFirstThere(TitleCandidates(f), Title(JObj(f)))
  {
    FirstOfFive(Get(f, "github_advisory_id"), Get(f, "url"), Get(f, "source"), Get(f, "title"), Get(f, "name"));
    FirstOfFour(Get(f, "title"), Get(f, "url"), Get(f, "advisory"), Get(f, "source"));
  }

  lemma FirstOfFour(a: Json, b: Json, c: Json, d: Json)
    ensures IsFirstThere([a, b, c, d], Or(a, Or(b, Or(c, d))))
  {
    LastThere(d);
    FirstThereOr(c, [d], d);
    FirstThereOr(b, [c] + [d], Or(c, d));
    FirstThereOr(a, [b] + ([c] + [d]), Or(b, Or(c, d)));
    assert [a] + ([b] + ([c] + [d])) == [a, b, c, d];
  }

  lemma FirstOfFive(a: Json, b: Json, c: Json, d: Json, e: Json)
    ensures IsFirstThere([a, b, c, d, e], Or(a, Or(b, Or(c, Or(d, e)))))
  {
    FirstOfFour(b, c, d, e);
    FirstThereOr(a, [b, c, d, e], Or(b, Or(c, Or(d, e))));
    assert [a] + [b, c, d, e] == [a, b, c, d, e];
  }

  /** An item of via gives id: a string itself, an object the first of its five candidates. */
  ghost predicate GivesId(item: Json, id: Json) {
    (item.JStr? && id == item) || (item.JObj? && IsFirstThere(ItemCandidates(item.fields), id))
  }

  /** A package with a list under via yields exactly the identifiers that its items give and that are there. */
  lemma {:induction false} ListYields(name: string, f: seq<(string, Json)>, items: seq<Json>, v: Vuln)
    requires Has(f, "via") && Get(f, "via") == JArr(items)
    ensures v in PackageTuples(name, JObj(f)) <==>
      && v.name == JStr(name) && v.severity == Get(f, "severity") && Truthy(v.advisory)
      && exists item | item in items :: GivesId(item, v.advisory)
  {
    PackageIdentified(name, JObj(f), v);
    forall item | item in items ensures GivesId(item, v.advisory) <==> Contributes(item) && v.advisory == Identifier(item) {
      ItemGives(item, v.advisory);
    }
  }

  lemma ItemGives(item: Json, id: Json)
    ensures GivesId(item, id) <==> Contributes(item) && id == Identifier(item)
  {
    if item.JObj? {
      ItemFirst(item.fields);
      if IsFirstThere(ItemCandidates(item.fields), id) { OneFirstThere(ItemCandidates(item.fields), id, Identifier(item)); }
    }
  }

  /** A package with a string under via yields it, and one without via or with anything else yields nothing. */
  lemma {:induction false} OtherViaYields(name: string, f: seq<(string, Json)>, v: Vuln)
    requires Has(f, "via") ==> !Get(f, "via").JArr?
    ensures v in PackageTuples(name, JObj(f)) <==>
      && v.name == JStr(name) && v.severity == Get(f, "severity") && Truthy(v.advisory)
      && Has(f, "via") && Get(f, "via").JStr? && v.advisory == Get(f, "via")
  {
    PackageIdentified(name, JObj(f), v);
    var items := ItemsOf(ViaOf(f));
    assert Names(name, JObj(f), v) ==> exists item | item in items :: Contributes(item) && v.advisory == Identifier(item);
    if Has(f, "via") && Get(f, "via").JStr? {
      assert items == [Get(f, "via")];
      assert Get(f, "via") in items;
    } else {
      assert items == [];
    }
  }

  /** A package raises exactly when it is no object or some object in its list has a title that is there but no string. */
  lemma PackageRaises(v: Json)
    ensures VulnerabilityRaises(v) <==>
      !v.JObj? || (Has(v.fields, "via") && Get(v.fields, "via").JArr? &&
        exists item, t :: item in Get(v.fields, "via").items && item.JObj?
          && IsFirstThere(TitleCandidates(item.fields), t) && Truthy(t) && !t.JStr?)
  {
    if v.JObj? {
      var items := ItemsOf(ViaOf(v.fields));
      if i :| 0 <= i < |items| && Unjoinable(items[i]) {
        ItemFirst(items[i].fields);
        assert items[i] in items;
      }
      if item, t :| item in items && item.JObj? && IsFirstThere(TitleCandidates(item.fields), t) && Truthy(t) && !t.JStr? {
        ItemFirst(item.fields);
        OneFirstThere(TitleCandidates(item.fields), t, Title(item));
        var i :| 0 <= i < |items| && items[i] == item;
        assert Unjoinable(items[i]);
      }
    }
  }

  /** The second shape yields exactly the identifiers that are there, under the name of their package. */
  lemma {:induction false} SecondShapeIdentified(entries: seq<(string, Json)>, v: Vuln)
    requires forall i | 0 <= i < |entries| :: !VulnerabilityRaises(entries[i].1)
    ensures v in VulnerabilityTuples(entries) <==>
      exists i | 0 <= i < |entries| :: Names(entries[i].0, entries[i].1, v)
  {
    if v in VulnerabilityTuples(entries) { var i := Source(entries, v); }
    if i :| 0 <= i < |entries| && Names(entries[i].0, entries[i].1, v) { Listed(entries, v, i); }
  }

  lemma {:induction false} Source(entries: seq<(string, Json)>, v: Vuln) returns (i: nat)
    requires forall i | 0 <= i < |entries| :: !VulnerabilityRaises(entries[i].1)
    requires v in VulnerabilityTuples(entries)
    ensures i < |entries| && Names(entries[i].0, entries[i].1, v)
  {
    i := |entries| - 1;
    LastListed(entries, v);
    if v in VulnerabilityTuples(entries[..i]) { i := Source(entries[..i], v); }
  }

  lemma {:induction false} Listed(entries: seq<(string, Json)>, v: Vuln, i: nat)
    requires forall i | 0 <= i < |entries| :: !VulnerabilityRaises(entries[i].1)
    requires i < |entries| && Names(entries[i].0, entries[i].1, v)
    ensures v in VulnerabilityTuples(entries)
  {
    LastListed(entries, v);
    if i < |entries| - 1 {
      assert entries[..|entries| - 1][i] == entries[i];
      Listed(entries[..|entries| - 1], v, i);
    }
  }

  lemma {:induction false} LastListed(entries: seq<(string, Json)>, v: Vuln)
    requires entries != [] && forall i | 0 <= i < |entries| :: !VulnerabilityRaises(entries[i].1)
    ensures var n := |entries| - 1;
      v in VulnerabilityTuples(entries) <==> v in VulnerabilityTuples(entries[..n]) || Names(entries[n].0, entries[n].1, v)
  {
    var n := |entries| - 1;
    assert !VulnerabilityRaises(entries[n].1);
    PackageIdentified(entries[n].0, entries[n].1, v);
  }

  /** v is package name with an identifier of its via. */
  ghost predicate Names(name: string, p: Json, v: Vuln) {
    && p.JObj? && v.name == JStr(name) && v.severity == Get(p.fields, "severity") && Truthy(v.advisory)
    && exists item | item in ItemsOf(ViaOf(p.fields)) :: Contributes(item) && v.advisory == Identifier(item)
  }

  lemma PackageIdentified(name: string, p: Json, v: Vuln)
    requires p.JObj?
    ensures v in PackageTuples(name, p) <==> Names(name, p, v)
  {
    var items := ItemsOf(ViaOf(p.fields));
    var kept := Filter(Contributes, items);
    var ids := Map(Identifier, kept);
    var there := Filter(Truthy, ids);
    if v in PackageTuples(name, p) {
      var i :| 0 <= i < |there| && v == TupleOf(name, Get(p.fields, "severity"))(there[i]);
      FilterIn(Truthy, ids, there[i]);
      assert there[i] in there;
      var j :| 0 <= j < |ids| && ids[j] == there[i];
      FilterIn(Contributes, items, kept[j]);
      assert kept[j] in kept;
    }
    if Names(name, p, v) {
      var item :| item in items && Contributes(item) && v.advisory == Identifier(item);
      FilterIn(Contributes, items, item);
      var j :| 0 <= j < |kept| && kept[j] == item;
      assert ids[j] == v.advisory;
      FilterIn(Truthy, ids, v.advisory);
      var i :| 0 <= i < |there| && there[i] == v.advisory;
      assert PackageTuples(name, p)[i] == v;
    }
  }
}
