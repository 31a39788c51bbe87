/** The pull-request evidence gate: which changes it accepts under one policy, and what its two-policy
    check makes of a policy that changes in the same pull request. */
module DeliveryGate {
  import opened JsonValues
  import opened Options
  import opened Sequences

  /** The checkout: pattern matching, files, sizes and parsed records are whatever they are. */
  datatype World = World(
    matches: (string, string) -> bool,          // path, pattern
    isFile: string -> bool,                     // a regular file inside the repository, not a link
    isSmall: string -> bool,                    // at most 65536 bytes
    parsed: string -> Option<Json>,             // the file as JSON without repeated keys
    stripped: string -> string)

  // ------------------------------------------------------------ strict JSON objects

  /** An object is accepted exactly when no key repeats, and then holds exactly the pairs written. */
  method StrictObject(pairs: seq<(string, Json)>) returns (result: Option<map<string, Json>>)
    ensures result.Some? <==> UniqueKeys(pairs)
    ensures result.Some? ==>
              && (forall k :: 0 <= k < |pairs| ==> pairs[k].0 in result.value && result.value[pairs[k].0] == pairs[k].1)
              && (forall key :: key in result.value ==> exists k :: 0 <= k < |pairs| && pairs[k].0 == key)
  {
    var fields: map<string, Json> := map[];
    for n := 0 to |pairs|
      invariant UniqueKeys(pairs[..n])
      invariant forall k :: 0 <= k < n ==> pairs[k].0 in fields && fields[pairs[k].0] == pairs[k].1
      invariant forall key :: key in fields ==> exists k :: 0 <= k < n && pairs[k].0 == key
    {
      var (key, value) := pairs[n];
      if key in fields {
        var k :| 0 <= k < n && pairs[k].0 == key;
        assert pairs[k].0 == pairs[n].0;
        return None;
      }
      assert forall k :: 0 <= k < n ==> pairs[k].0 != key;
      fields := fields[key := value];
    }
    assert pairs[..|pairs|] == pairs;
    return Some(fields);
  }

  // --------------------------------------------------------------------- text shapes

  predicate StartsWith(s: string, prefix: string) { prefix <= s }

  predicate EndsWith(s: string, suffix: string) { |suffix| <= |s| && s[|s| - |suffix|..] == suffix }

  function Split(s: string, c: char): seq<string>
    decreases |s|
  {
    var k := Find(s, c);
    if k == |s| then [s] else [s[..k]] + Split(s[k + 1..], c)
  }

  predicate SafePath(name: string) {
    && 0 < |name| <= 500
    && !StartsWith(name, "/") && '\\' !in name
    && forall part :: part in Split(name, '/') ==> part !in {"", ".", ".."} && !StartsWith(part, ".env")
  }

  predicate SafePattern(pattern: string) {
    pattern != "" && !StartsWith(pattern, "/") && ".." !in Split(pattern, '/')
  }

  /** A lower-case letter, then `least..most` letters, digits or characters of `more`. */
  predicate Slug(s: string, more: set<char>, most: nat) {
    && 2 <= |s| <= most + 1
    && 'a' <= s[0] <= 'z'
    && forall k :: 1 <= k < |s| ==> 'a' <= s[k] <= 'z' || '0' <= s[k] <= '9' || s[k] in more
  }

  predicate Reason(w: World, value: Json) {
    value.Text? && 20 <= |w.stripped(value.text)| <= 4000
  }

  // ---------------------------------------------------------------- lists without repeats

  /** A list built from three is free of repeats exactly when each is and no two share a member. */
  lemma UniqueJoin(a: seq<string>, b: seq<string>, c: seq<string>)
    ensures Unique(a + b + c) <==>
              && Unique(a) && Unique(b) && Unique(c)
              && Members(a) !! Members(b) && Members(a) !! Members(c) && Members(b) !! Members(c)
  {
    UniquePair(a + b, c);
    UniquePair(a, b);
    assert Members(a + b) == Members(a) + Members(b);
  }

  lemma UniquePair(a: seq<string>, b: seq<string>)
    ensures Unique(a + b) <==> Unique(a) && Unique(b) && Members(a) !! Members(b)
  {
    var s := a + b;
    if Unique(s) {
      assert forall i :: 0 <= i < |a| ==> s[i] == a[i];
      assert forall j :: 0 <= j < |b| ==> s[|a| + j] == b[j];
      forall i, j | 0 <= i < |a| && 0 <= j < |b| ensures a[i] != b[j] {
        assert s[i] == a[i] && s[|a| + j] == b[j];
      }
      assert Members(a) !! Members(b);
    }
    if Unique(a) && Unique(b) && Members(a) !! Members(b) {
      forall i, j | 0 <= i < j < |s| ensures s[i] != s[j] {
        if j < |a| {
          assert s[i] == a[i] && s[j] == a[j];
        } else if |a| <= i {
          assert s[i] == b[i - |a|] && s[j] == b[j - |a|];
        } else {
          assert s[i] in Members(a) && s[j] in Members(b);
        }
      }
    }
  }

  // ------------------------------------------------------------------------- evidence

  datatype Role = Contracts | Documentation | Tests

  function Label(role: Role): string {
    match role
    case Contracts => "contract_files"
    case Documentation => "documentation_files"
    case Tests => "test_files"
  }

  function Texts(value: Json): (r: Option<seq<string>>)
  {
    if value.List? && forall k :: 0 <= k < |value.items| ==> value.items[k].Text?
    then Some(seq(|value.items|, k requires 0 <= k < |value.items| => value.items[k].text))
    else None
  }

  predicate GoodPath(w: World, name: string) { SafePath(name) && w.isFile(name) }

  /** A list of evidence files, when it is one. */
  function PathsOf(w: World, value: Json): Option<seq<string>> {
    var names := Texts(value);
    if names.Some? && |names.value| <= 100 && Unique(names.value)
       && (forall k :: 0 <= k < |names.value| ==> GoodPath(w, names.value[k]))
    then names else None
  }

  method Paths(w: World, value: Json) returns (result: Option<seq<string>>)
    ensures result == PathsOf(w, value)
  {
    if !value.List? { return None; }
    if |value.items| > 100 { return None; }
    var names: seq<string> := [];
    for n := 0 to |value.items|
      invariant |names| == n
      invariant forall k :: 0 <= k < n ==>
                  value.items[k].Text? && names[k] == value.items[k].text && GoodPath(w, names[k])
    {
      if !value.items[n].Text? { return None; }
      var name := value.items[n].text;
      if !SafePath(name) || !w.isFile(name) {
        assert Texts(value).Some? ==> !GoodPath(w, Texts(value).value[n]);
        return None;
      }
      names := names + [name];
    }
    assert Texts(value).value == names;
    MembersCount(names);
    if |Members(names)| != |names| { return None; }
    return Some(names);
  }

  // -------------------------------------------------------------------------- records

  const RECORD_PREFIX := "docs/platform/changes/"
  const FIELDS := {"version", "product", "change", "reason", "capabilities", "contract_files",
                   "documentation_files", "test_files", "cli", "gateway"}
  const KINDS := {"read", "write", "authenticated_handoff", "not_externally_exposed"}

  predicate ScopesOk(kind: string, scopes: Json) {
    && Texts(scopes).Some?
    && |Texts(scopes).value| <= 20
    && (forall k :: 0 <= k < |Texts(scopes).value| ==> Slug(Texts(scopes).value[k], {'_', ':', '-'}, 100))
    && Unique(Texts(scopes).value)
    && (kind != "not_externally_exposed" ==> Texts(scopes).value != [])
  }

  predicate CapabilityOk(c: Json) {
    && c.Object? && c.fields.Keys == {"name", "kind", "scopes"}
    && c.fields["name"].Text? && Slug(c.fields["name"].text, {'_', '-'}, 100)
    && c.fields["kind"].Text? && c.fields["kind"].text in KINDS
    && ScopesOk(c.fields["kind"].text, c.fields["scopes"])
  }

  predicate CapabilitiesOk(value: Json) {
    && value.List? && |value.items| <= 200
    && (forall k :: 0 <= k < |value.items| ==> CapabilityOk(value.items[k]))
    && (forall j, k :: 0 <= j < k < |value.items| ==> value.items[j].fields["name"] != value.items[k].fields["name"])
  }

  method ValidateCapabilities(value: Json) returns (ok: bool)
    ensures ok <==> CapabilitiesOk(value)
  {
    if !value.List? || |value.items| > 200 { return false; }
    var names: set<string> := {};
    for n := 0 to |value.items|
      invariant forall k :: 0 <= k < n ==> CapabilityOk(value.items[k])
      invariant names == set k | 0 <= k < n && CapabilityOk(value.items[k]) :: value.items[k].fields["name"].text
      invariant forall j, k :: 0 <= j < k < n ==> value.items[j].fields["name"] != value.items[k].fields["name"]
    {
      var capability := value.items[n];
      if !capability.Object? || capability.fields.Keys != {"name", "kind", "scopes"} { return false; }
      var name, kind := capability.fields["name"], capability.fields["kind"];
      if !name.Text? || !Slug(name.text, {'_', '-'}, 100) { return false; }
      if name.text in names {
        assert !CapabilitiesOk(value) by {
          var k :| 0 <= k < n && CapabilityOk(value.items[k]) && value.items[k].fields["name"].text == name.text;
          assert value.items[k].fields["name"] == value.items[n].fields["name"];
        }
        return false;
      }
      names := names + {name.text};
      if !kind.Text? || kind.text !in KINDS { return false; }
      if !ScopesOk(kind.text, capability.fields["scopes"]) { return false; }
    }
    return true;
  }

  predicate DecisionOk(w: World, value: Json, choices: set<string>) {
    && value.Object? && value.fields.Keys == {"impact", "reason"}
    && value.fields["impact"].Text? && value.fields["impact"].text in choices
    && Reason(w, value.fields["reason"])
  }

  type Categories = map<Role, seq<string>>

  /** The paths one role of a record names. */
  function Evidence(w: World, data: Json, role: Role): Option<seq<string>> {
    if data.Object? && Label(role) in data.fields then PathsOf(w, data.fields[Label(role)]) else None
  }

  /** The name may serve as evidence under one of the patterns. */
  predicate Admitted(w: World, name: string, patterns: seq<string>) {
    !StartsWith(name, RECORD_PREFIX) && exists p :: p in patterns && w.matches(name, p)
  }

  ghost predicate EvidenceOk(w: World, data: Json, categories: Categories) {
    && (forall role: Role :: Evidence(w, data, role).Some? && role in categories)
    && (forall role: Role, name :: name in Evidence(w, data, role).value ==> Admitted(w, name, categories[role]))
    && (forall a: Role, b: Role :: a != b ==>
          Members(Evidence(w, data, a).value) !! Members(Evidence(w, data, b).value))
  }

  ghost predicate ExternalOk(w: World, data: Json, changed: set<string>)
    requires forall role: Role :: Evidence(w, data, role).Some?
  {
    && "capabilities" in data.fields && data.fields["capabilities"].List? && data.fields["capabilities"].items != []
    && forall role: Role ::
         Evidence(w, data, role).value != [] && Members(Evidence(w, data, role).value) <= changed
  }

  ghost predicate InternalOk(w: World, data: Json)
    requires forall role: Role :: Evidence(w, data, role).Some?
    requires {"capabilities", "cli", "gateway"} <= data.fields.Keys
  {
    && data.fields["capabilities"] == List([])
    && (forall role: Role :: Evidence(w, data, role).value == [])
    && data.fields["cli"].Object? && "impact" in data.fields["cli"].fields
    && data.fields["cli"].fields["impact"] == Text("none")
    && data.fields["gateway"].Object? && "impact" in data.fields["gateway"].fields
    && data.fields["gateway"].fields["impact"] == Text("none")
  }

  predicate HeaderOk(w: World, data: Json, product: string) {
    && data.Object? && data.fields.Keys == FIELDS
    && data.fields["version"] == Int(1)
    && data.fields["product"] == Text(product)
    && data.fields["change"].Text? && data.fields["change"].text in {"add", "update", "no_external_change"}
    && Reason(w, data.fields["reason"])
  }

  predicate External(data: Json)
    requires data.Object? && "change" in data.fields
  {
    data.fields["change"] != Text("no_external_change")
  }

  ghost predicate ValidRecord(w: World, data: Json, product: string, changed: set<string>, categories: Categories) {
    && HeaderOk(w, data, product)
    && CapabilitiesOk(data.fields["capabilities"])
    && EvidenceOk(w, data, categories)
    && DecisionOk(w, data.fields["cli"], {"generic_tools", "release_required", "none"})
    && DecisionOk(w, data.fields["gateway"], {"adapter_update", "none"})
    && (if External(data) then ExternalOk(w, data, changed) else InternalOk(w, data))
  }

  /** One pass over the names of one role. */
  method AdmitAll(w: World, names: seq<string>, patterns: seq<string>) returns (ok: bool)
    ensures ok <==> forall name :: name in names ==> Admitted(w, name, patterns)
  {
    for n := 0 to |names|
      invariant forall k :: 0 <= k < n ==> Admitted(w, names[k], patterns)
    {
      assert names[n] in names;
      if StartsWith(names[n], RECORD_PREFIX) { return false; }
      var found := false;
      for m := 0 to |patterns|
        invariant found <==> exists k :: 0 <= k < m && w.matches(names[n], patterns[k])
      {
        if w.matches(names[n], patterns[m]) { found := true; }
      }
      if !found {
        assert !Admitted(w, names[n], patterns);
        return false;
      }
    }
    return true;
  }

  /** The evidence of every role, once it is known to be admissible. */
  method ValidateEvidence(w: World, data: Json, product: string, categories: Categories)
    returns (evidence: Option<(seq<string>, seq<string>, seq<string>)>)
    requires HeaderOk(w, data, product) && forall role: Role :: role in categories
    ensures evidence.Some? <==> EvidenceOk(w, data, categories)
    ensures evidence.Some? ==>
              && Evidence(w, data, Contracts) == Some(evidence.value.0)
              && Evidence(w, data, Documentation) == Some(evidence.value.1)
              && Evidence(w, data, Tests) == Some(evidence.value.2)
  {
    evidence := None;
    var contracts := Paths(w, data.fields[Label(Contracts)]);
    var documentation := Paths(w, data.fields[Label(Documentation)]);
    var tests := Paths(w, data.fields[Label(Tests)]);
    assert Evidence(w, data, Contracts) == contracts;
    assert Evidence(w, data, Documentation) == documentation;
    assert Evidence(w, data, Tests) == tests;
    if contracts == None || documentation == None || tests == None { return; }
    var all := contracts.value + documentation.value + tests.value;
    MembersCount(all);
    UniqueJoin(contracts.value, documentation.value, tests.value);
    EvidenceParts(w, data, categories, contracts.value, documentation.value, tests.value);
    if |Members(all)| != |all| { return; }
    var first := AdmitAll(w, contracts.value, categories[Contracts]);
    var second := AdmitAll(w, documentation.value, categories[Documentation]);
    var third := AdmitAll(w, tests.value, categories[Tests]);
    if !first || !second || !third { return; }
    evidence := Some((contracts.value, documentation.value, tests.value));
  }

  /** The three roles spelt out. */
  lemma EvidenceParts(w: World, data: Json, categories: Categories, a: seq<string>, b: seq<string>, c: seq<string>)
    requires forall role: Role :: role in categories
    requires Evidence(w, data, Contracts) == Some(a)
    requires Evidence(w, data, Documentation) == Some(b)
    requires Evidence(w, data, Tests) == Some(c)
    ensures Unique(a) && Unique(b) && Unique(c)
    ensures EvidenceOk(w, data, categories) <==>
              && Members(a) !! Members(b) && Members(a) !! Members(c) && Members(b) !! Members(c)
              && (forall name :: name in a ==> Admitted(w, name, categories[Contracts]))
              && (forall name :: name in b ==> Admitted(w, name, categories[Documentation]))
              && (forall name :: name in c ==> Admitted(w, name, categories[Tests]))
  {
    forall role: Role ensures Evidence(w, data, role).Some? {
      match role case Contracts => case Documentation => case Tests =>
    }
    if Members(a) !! Members(b) && Members(a) !! Members(c) && Members(b) !! Members(c) {
      forall p: Role, q: Role | p != q
        ensures Members(Evidence(w, data, p).value) !! Members(Evidence(w, data, q).value)
      {
        match p case Contracts => case Documentation => case Tests =>
      }
    }
  }

  method ValidateRecord(w: World, data: Json, product: string, changed: set<string>, categories: Categories)
    returns (ok: bool)
    requires forall role: Role :: role in categories
    ensures ok <==> ValidRecord(w, data, product, changed, categories)
  {
    if !HeaderOk(w, data, product) { return false; }
    var capabilities := data.fields["capabilities"];
    var listed := ValidateCapabilities(capabilities);
    if !listed { return false; }
    var evidence := ValidateEvidence(w, data, product, categories);
    if evidence == None { return false; }
    var (contracts, documentation, tests) := evidence.value;
    if !DecisionOk(w, data.fields["cli"], {"generic_tools", "release_required", "none"})
       || !DecisionOk(w, data.fields["gateway"], {"adapter_update", "none"}) { return false; }
    if data.fields["change"] != Text("no_external_change") {
      ok := capabilities.items != []
            && contracts != [] && Members(contracts) <= changed
            && documentation != [] && Members(documentation) <= changed
            && tests != [] && Members(tests) <= changed;
      ExternalParts(w, data, changed, contracts, documentation, tests);
    } else {
      ok := capabilities.items == [] && contracts + documentation + tests == []
            && data.fields["cli"].fields["impact"] == Text("none")
            && data.fields["gateway"].fields["impact"] == Text("none");
      InternalParts(w, data, contracts, documentation, tests);
    }
  }

  lemma ExternalParts(w: World, data: Json, changed: set<string>, a: seq<string>, b: seq<string>, c: seq<string>)
    requires Evidence(w, data, Contracts) == Some(a)
    requires Evidence(w, data, Documentation) == Some(b)
    requires Evidence(w, data, Tests) == Some(c)
    ensures forall role: Role :: Evidence(w, data, role).Some?
    ensures (forall role: Role ::
               Evidence(w, data, role).value != [] && Members(Evidence(w, data, role).value) <= changed)
            <==> a != [] && Members(a) <= changed
                 && b != [] && Members(b) <= changed && c != [] && Members(c) <= changed
  {
    forall role: Role ensures Evidence(w, data, role) in {Some(a), Some(b), Some(c)} {
      match role case Contracts => case Documentation => case Tests =>
    }
  }

  lemma InternalParts(w: World, data: Json, a: seq<string>, b: seq<string>, c: seq<string>)
    requires Evidence(w, data, Contracts) == Some(a)
    requires Evidence(w, data, Documentation) == Some(b)
    requires Evidence(w, data, Tests) == Some(c)
    ensures forall role: Role :: Evidence(w, data, role).Some?
    ensures (forall role: Role :: Evidence(w, data, role).value == []) <==> a + b + c == []
  {
    forall role: Role ensures Evidence(w, data, role) in {Some(a), Some(b), Some(c)} {
      match role case Contracts => case Documentation => case Tests =>
    }
  }

  // ------------------------------------------------------------------------- policies

  /** A policy as written; it may still break the bounds of `WellFormed`. */
  datatype Policy = Policy(product: string, watched: seq<string>, categories: Categories)

  predicate PatternsOk(patterns: seq<string>) {
    0 < |patterns| <= 100 && forall k :: 0 <= k < |patterns| ==> SafePattern(patterns[k])
  }

  ghost predicate WellFormed(p: Policy) {
    && Slug(p.product, {'_', '-'}, 60)
    && PatternsOk(p.watched)
    && forall role: Role :: role in p.categories && PatternsOk(p.categories[role])
  }

  /** The policy a JSON value spells, when it has the fields and types of one. */
  function Decoded(config: Json): Option<Policy> {
    if config.Object? && config.fields.Keys == {"version", "product", "watched_paths", "evidence_paths"}
       && config.fields["version"] == Int(1) && config.fields["product"].Text?
       && Texts(config.fields["watched_paths"]).Some?
       && config.fields["evidence_paths"].Object?
       && config.fields["evidence_paths"].fields.Keys == {Label(Contracts), Label(Documentation), Label(Tests)}
       && forall role: Role :: Texts(config.fields["evidence_paths"].fields[Label(role)]).Some?
    then Some(Policy(config.fields["product"].text, Texts(config.fields["watched_paths"]).value,
                     map role: Role | role in {Contracts, Documentation, Tests} ::
                       Texts(config.fields["evidence_paths"].fields[Label(role)]).value))
    else None
  }

  /** Files the gate watches whatever the policy says. */
  const GATE_PATHS := {
    "docs/platform/delivery-policy.json",
    "scripts/check_platform_delivery.py",
    "scripts/test_platform_delivery_policy.py",
    "tests/test_platform_delivery_gate.py",
    ".github/workflows/platform-delivery.yml",
    ".github/workflows/ci.yml",
    ".github/pull_request_template.md",
    "AGENTS.md",
    "docs/service-delivery.md",
    "docs/platform-service-delivery.md",
    "docs/development/platform-feature-delivery.md"}

  predicate Watches(w: World, p: Policy, name: string) {
    name in GATE_PATHS || exists pattern :: pattern in p.watched && w.matches(name, pattern)
  }

  function Records(changed: set<string>): set<string> {
    set name | name in changed && StartsWith(name, RECORD_PREFIX) && EndsWith(name, ".json")
  }

  ghost predicate RecordAccepted(w: World, name: string, p: Policy, changed: set<string>) {
    && GoodPath(w, name) && w.isSmall(name) && w.parsed(name).Some?
    && ValidRecord(w, w.parsed(name).value, p.product, changed, p.categories)
  }

  ghost predicate Accepts(w: World, p: Policy, changed: set<string>) {
    && WellFormed(p)
    && ((exists name :: name in changed && Watches(w, p, name)) ==> Records(changed) != {})
    && forall name :: name in Records(changed) ==> RecordAccepted(w, name, p, changed)
  }

  ghost function Verdict(w: World, config: Json, changed: set<string>): Option<nat> {
    var p := Decoded(config);
    if p.Some? && Accepts(w, p.value, changed) then Some(|Records(changed)|) else None
  }

  lemma WellFormedParts(p: Policy)
    requires Contracts in p.categories && Documentation in p.categories && Tests in p.categories
    ensures forall role: Role :: role in p.categories
    ensures WellFormed(p) <==>
              && Slug(p.product, {'_', '-'}, 60) && PatternsOk(p.watched)
              && PatternsOk(p.categories[Contracts]) && PatternsOk(p.categories[Documentation])
              && PatternsOk(p.categories[Tests])
  {
    forall role: Role ensures role in p.categories {
      match role case Contracts => case Documentation => case Tests =>
    }
    if PatternsOk(p.categories[Contracts]) && PatternsOk(p.categories[Documentation])
       && PatternsOk(p.categories[Tests]) {
      forall role: Role ensures PatternsOk(p.categories[role]) {
        match role case Contracts => case Documentation => case Tests =>
      }
    }
  }

  method Check(w: World, config: Json, changed: set<string>) returns (count: Option<nat>)
    ensures count == Verdict(w, config, changed)
  {
    var decoded := Decoded(config);
    if decoded == None { return None; }
    var p := decoded.value;
    WellFormedParts(p);
    if !Slug(p.product, {'_', '-'}, 60) || !PatternsOk(p.watched) || !PatternsOk(p.categories[Contracts])
       || !PatternsOk(p.categories[Documentation]) || !PatternsOk(p.categories[Tests]) { return None; }
    var relevant := set name | name in changed && Watches(w, p, name);
    var records := Records(changed);
    if relevant != {} && records == {} {
      assert exists name :: name in relevant;
      return None;
    }
    assert relevant == {} ==> forall name :: name in changed ==> name !in relevant;
    var ok := CheckRecords(w, records, p, changed);
    if !ok { return None; }
    return Some(|records|);
  }

  method CheckRecords(w: World, records: set<string>, p: Policy, changed: set<string>) returns (ok: bool)
    requires forall role: Role :: role in p.categories
    ensures ok <==> forall name :: name in records ==> RecordAccepted(w, name, p, changed)
  {
    var left := records;
    while left != {}
      invariant left <= records
      invariant forall name :: name in records - left ==> RecordAccepted(w, name, p, changed)
    {
      var name :| name in left;
      left := left - {name};
      if !GoodPath(w, name) || !w.isSmall(name) { return false; }
      var data := w.parsed(name);
      if data == None { return false; }
      var valid := ValidateRecord(w, data.value, p.product, changed, p.categories);
      if !valid { return false; }
    }
    return true;
  }

  method CheckPolicies(w: World, base: Json, config: Json, changed: set<string>) returns (count: Option<nat>)
    ensures count == GateVerdict(w, base, config, changed)
  {
    var baseCount := Check(w, base, changed);
    if baseCount == None { return None; }
    count := Check(w, config, changed);
    if count == None { return None; }
    if Decoded(base).value.product != Decoded(config).value.product { return None; }
    if baseCount != count { return None; }
  }

  /** Both policies accept and name the same product. */
  ghost function GateVerdict(w: World, base: Json, config: Json, changed: set<string>): Option<nat> {
    if Verdict(w, base, changed).Some? && Verdict(w, config, changed).Some?
       && Decoded(base).value.product == Decoded(config).value.product
    then Some(|Records(changed)|) else None
  }

  // ----------------------------------------------------------------------- monotonicity

  /** `strict` watches at least what `loose` watches, and admits no evidence that `loose` does not. */
  ghost predicate Tightens(loose: Policy, strict: Policy) {
    && loose.product == strict.product
    && Members(loose.watched) <= Members(strict.watched)
    && forall role: Role ::
         role in loose.categories && role in strict.categories
         && Members(strict.categories[role]) <= Members(loose.categories[role])
  }

  lemma AdmittedWidens(w: World, name: string, few: seq<string>, many: seq<string>)
    requires Members(few) <= Members(many) && Admitted(w, name, few)
    ensures Admitted(w, name, many)
  {
    var p :| p in few && w.matches(name, p);
    assert p in Members(few);
  }

  lemma ValidUnderLooser(w: World, data: Json, changed: set<string>, loose: Policy, strict: Policy)
    requires Tightens(loose, strict) && ValidRecord(w, data, strict.product, changed, strict.categories)
    ensures ValidRecord(w, data, loose.product, changed, loose.categories)
  {
    forall role: Role, name | name in Evidence(w, data, role).value
      ensures Admitted(w, name, loose.categories[role])
    {
      AdmittedWidens(w, name, strict.categories[role], loose.categories[role]);
    }
  }

  /** Adding watched patterns or removing evidence patterns never turns a rejection into an
      acceptance, as long as the looser policy is well formed; a looser policy that is not is rejected
      whatever the stricter one says. */
  lemma GateIsMonotoneExactlyWhenWellFormed(w: World, loose: Policy, strict: Policy, changed: set<string>)
    requires Tightens(loose, strict) && Accepts(w, strict, changed)
    ensures Accepts(w, loose, changed) <==> WellFormed(loose)
  {
    if WellFormed(loose) {
      forall name | name in Records(changed) ensures RecordAccepted(w, name, loose, changed) {
        ValidUnderLooser(w, w.parsed(name).value, changed, loose, strict);
      }
      forall name | name in changed && Watches(w, loose, name) ensures Watches(w, strict, name) {
        if name !in GATE_PATHS {
          var p :| p in loose.watched && w.matches(name, p);
          assert p in Members(loose.watched);
        }
      }
    }
  }

  /** The condition is needed: emptying the watched list is looser, and is refused. */
  lemma EmptiedWatchListIsRefused(w: World, strict: Policy, changed: set<string>)
    requires Accepts(w, strict, changed)
    ensures Tightens(strict.(watched := []), strict) && !Accepts(w, strict.(watched := []), changed)
  {
  }

  /** Under either policy being at least as strict as the other, the two-policy gate is that stricter
      policy alone: loosening a policy does not help the pull request that does it, and tightening it
      binds at once. */
  lemma StricterPolicyDecides(w: World, base: Json, config: Json, changed: set<string>)
    requires Decoded(base).Some? && Decoded(config).Some?
    requires WellFormed(Decoded(base).value) && WellFormed(Decoded(config).value)
    ensures Tightens(Decoded(config).value, Decoded(base).value) ==>
              GateVerdict(w, base, config, changed) == Verdict(w, base, changed)
    ensures Tightens(Decoded(base).value, Decoded(config).value) ==>
              GateVerdict(w, base, config, changed) == Verdict(w, config, changed)
  {
    var p, q := Decoded(base).value, Decoded(config).value;
    if Tightens(q, p) && Accepts(w, p, changed) { GateIsMonotoneExactlyWhenWellFormed(w, q, p, changed); }
    if Tightens(p, q) && Accepts(w, q, changed) { GateIsMonotoneExactlyWhenWellFormed(w, p, q, changed); }
  }

  // ------------------------------------------------------------- what acceptance guarantees

  /** Evidence of a record, under both policies: no file serves two roles, every file is admitted by
      both, and an external change names capabilities and, for each role, files it changed. */
  ghost predicate Evidenced(w: World, data: Json, base: Policy, proposed: Policy, changed: set<string>) {
    && data.Object? && "change" in data.fields && "capabilities" in data.fields
    && (forall role: Role :: Evidence(w, data, role).Some? && role in base.categories && role in proposed.categories)
    && (forall a: Role, b: Role :: a != b ==>
          Members(Evidence(w, data, a).value) !! Members(Evidence(w, data, b).value))
    && (forall role: Role, name :: name in Evidence(w, data, role).value ==>
          Admitted(w, name, base.categories[role]) && Admitted(w, name, proposed.categories[role]))
    && (External(data) ==>
          && data.fields["capabilities"] != List([])
          && forall role: Role ::
               Evidence(w, data, role).value != [] && Members(Evidence(w, data, role).value) <= changed)
    && (!External(data) ==>
          data.fields["capabilities"] == List([]) && forall role: Role :: Evidence(w, data, role).value == [])
  }

  /** An accepted pull request that changes a path either policy watches also changes a record, and
      each record it changes is evidenced under both policies. The comparison of the two counts never
      refuses anything: it counts the same records twice. */
  lemma AcceptedChangesAreEvidenced(w: World, base: Json, config: Json, changed: set<string>)
    ensures GateVerdict(w, base, config, changed).Some? ==>
              var p, q := Decoded(base).value, Decoded(config).value;
              && ((exists name :: name in changed && (Watches(w, p, name) || Watches(w, q, name))) ==>
                    Records(changed) != {})
              && (forall name :: name in Records(changed) ==>
                    w.parsed(name).Some? && Evidenced(w, w.parsed(name).value, p, q, changed))
              && Verdict(w, base, changed) == Verdict(w, config, changed)
  {
    if GateVerdict(w, base, config, changed).Some? {
      var p, q := Decoded(base).value, Decoded(config).value;
      forall name | name in Records(changed)
        ensures w.parsed(name).Some? && Evidenced(w, w.parsed(name).value, p, q, changed)
      {
        assert RecordAccepted(w, name, p, changed) && RecordAccepted(w, name, q, changed);
        RecordIsEvidenced(w, w.parsed(name).value, p, q, changed);
      }
    }
  }

  lemma RecordIsEvidenced(w: World, data: Json, p: Policy, q: Policy, changed: set<string>)
    requires ValidRecord(w, data, p.product, changed, p.categories)
    requires ValidRecord(w, data, q.product, changed, q.categories)
    ensures Evidenced(w, data, p, q, changed)
  {
  }
}
