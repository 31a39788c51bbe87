/** Policies and delivery records as values: which JSON spells one, and which records are accepted,
    said of the values. */
module DeliveryRecords {
  import opened JsonValues
  import opened Options
  import opened Sequences
  import opened DeliveryGate
  import opened DeliveryLaws

  // -------------------------------------------------------------------------- texts

  function TextList(texts: seq<string>): Json {
    List(seq(|texts|, k requires 0 <= k < |texts| => Text(texts[k])))
  }

  lemma TextsExactly(value: Json, texts: seq<string>)
    ensures Texts(value) == Some(texts) <==> value == TextList(texts)
  {
    if Texts(value) == Some(texts) {
      assert forall k :: 0 <= k < |texts| ==> value.items[k] == Text(texts[k]);
      assert value.items == TextList(texts).items;
    }
    if value == TextList(texts) { assert Texts(value).value == texts; }
  }

  // ----------------------------------------------------------------------- policies

  predicate AllRoles(p: Policy) {
    p.categories.Keys == {Contracts, Documentation, Tests}
  }

  function PolicyJson(p: Policy): Json
    requires AllRoles(p)
  {
    Object(map["version" := Int(1), "product" := Text(p.product), "watched_paths" := TextList(p.watched),
               "evidence_paths" := Object(map["contract_files" := TextList(p.categories[Contracts]),
                                              "documentation_files" := TextList(p.categories[Documentation]),
                                              "test_files" := TextList(p.categories[Tests])])])
  }

  lemma WrittenPolicyIsRead(p: Policy)
    requires AllRoles(p)
    ensures Decoded(PolicyJson(p)) == Some(p)
  {
    var evidence := PolicyJson(p).fields["evidence_paths"];
    TextsExactly(TextList(p.watched), p.watched);
    forall role: Role ensures role in p.categories && Texts(evidence.fields[Label(role)]) == Some(p.categories[role]) {
      match role
      case Contracts => TextsExactly(TextList(p.categories[Contracts]), p.categories[Contracts]);
      case Documentation => TextsExactly(TextList(p.categories[Documentation]), p.categories[Documentation]);
      case Tests => TextsExactly(TextList(p.categories[Tests]), p.categories[Tests]);
    }
    assert Decoded(PolicyJson(p)).Some?;
    assert Decoded(PolicyJson(p)).value.categories == p.categories;
  }

  lemma ReadPolicyIsWritten(config: Json)
    requires Decoded(config).Some?
    ensures AllRoles(Decoded(config).value) && config == PolicyJson(Decoded(config).value)
  {
    var p := Decoded(config).value;
    var evidence := config.fields["evidence_paths"];
    assert AllRoles(p);
    TextsExactly(config.fields["watched_paths"], p.watched);
    TextsExactly(evidence.fields[Label(Contracts)], p.categories[Contracts]);
    TextsExactly(evidence.fields[Label(Documentation)], p.categories[Documentation]);
    TextsExactly(evidence.fields[Label(Tests)], p.categories[Tests]);
    assert evidence.fields == PolicyJson(p).fields["evidence_paths"].fields;
    assert config.fields == PolicyJson(p).fields;
  }

  /** A document spells a policy in exactly one way. */
  lemma PolicySpelledExactly(config: Json, p: Policy)
    ensures Decoded(config) == Some(p) <==> AllRoles(p) && config == PolicyJson(p)
  {
    if Decoded(config) == Some(p) { ReadPolicyIsWritten(config); }
    if AllRoles(p) { WrittenPolicyIsRead(p); }
  }

  // ------------------------------------------------------------------------- values

  datatype Capability = Capability(name: string, kind: string, scopes: seq<string>)

  datatype Decision = Decision(impact: string, reason: string)

  datatype Record = Record(
    product: string, change: string, reason: string, capabilities: seq<Capability>,
    contracts: seq<string>, documentation: seq<string>, tests: seq<string>, cli: Decision, gateway: Decision)

  function CapabilityJson(c: Capability): Json {
    Object(map["name" := Text(c.name), "kind" := Text(c.kind), "scopes" := TextList(c.scopes)])
  }

  function CapabilitiesJson(cs: seq<Capability>): Json {
    List(seq(|cs|, k requires 0 <= k < |cs| => CapabilityJson(cs[k])))
  }

  function DecisionJson(d: Decision): Json {
    Object(map["impact" := Text(d.impact), "reason" := Text(d.reason)])
  }

  function RecordJson(r: Record): Json {
    Object(map["version" := Int(1), "product" := Text(r.product), "change" := Text(r.change),
               "reason" := Text(r.reason), "capabilities" := CapabilitiesJson(r.capabilities),
               "contract_files" := TextList(r.contracts), "documentation_files" := TextList(r.documentation),
               "test_files" := TextList(r.tests), "cli" := DecisionJson(r.cli), "gateway" := DecisionJson(r.gateway)])
  }

  // ------------------------------------------------------------------- capabilities

  predicate FitCapability(c: Capability) {
    && Slug(c.name, {'_', '-'}, 100)
    && (c.kind == "read" || c.kind == "write" || c.kind == "authenticated_handoff"
        || c.kind == "not_externally_exposed")
    && |c.scopes| <= 20 && Unique(c.scopes)
    && (forall k :: 0 <= k < |c.scopes| ==> Slug(c.scopes[k], {'_', ':', '-'}, 100))
    && (c.scopes == [] ==> c.kind == "not_externally_exposed")
  }

  lemma CapabilityFitsExactly(c: Capability)
    ensures CapabilityOk(CapabilityJson(c)) <==> FitCapability(c)
  {
    TextsExactly(TextList(c.scopes), c.scopes);
  }

  lemma CapabilityIsWritten(value: Json)
    requires CapabilityOk(value)
    ensures value == CapabilityJson(Capability(value.fields["name"].text, value.fields["kind"].text,
                                               Texts(value.fields["scopes"]).value))
  {
    var c := Capability(value.fields["name"].text, value.fields["kind"].text, Texts(value.fields["scopes"]).value);
    TextsExactly(value.fields["scopes"], c.scopes);
    assert value.fields == CapabilityJson(c).fields;
  }

  predicate FitCapabilities(cs: seq<Capability>) {
    && |cs| <= 200
    && (forall k :: 0 <= k < |cs| ==> FitCapability(cs[k]))
    && (forall j, k :: 0 <= j < k < |cs| ==> cs[j].name != cs[k].name)
  }

  lemma CapabilitiesFitExactly(cs: seq<Capability>)
    ensures CapabilitiesOk(CapabilitiesJson(cs)) <==> FitCapabilities(cs)
  {
    var value := CapabilitiesJson(cs);
    forall k | 0 <= k < |cs|
      ensures CapabilityOk(value.items[k]) <==> FitCapability(cs[k])
      ensures value.items[k].fields["name"] == Text(cs[k].name)
    {
      CapabilityFitsExactly(cs[k]);
      assert value.items[k] == CapabilityJson(cs[k]);
    }
    if CapabilitiesOk(value) {
      forall k | 0 <= k < |cs| ensures FitCapability(cs[k]) { assert CapabilityOk(value.items[k]); }
      forall j, k | 0 <= j < k < |cs| ensures cs[j].name != cs[k].name {
        assert value.items[j].fields["name"] != value.items[k].fields["name"];
      }
    }
  }

  lemma CapabilitiesAreWritten(value: Json)
    requires CapabilitiesOk(value)
    ensures exists cs :: value == CapabilitiesJson(cs)
  {
    var n := |value.items|;
    forall k | 0 <= k < n ensures CapabilityOk(value.items[k]) { }
    var cs := seq(n, k requires 0 <= k < n && CapabilityOk(value.items[k]) =>
                       Capability(value.items[k].fields["name"].text, value.items[k].fields["kind"].text,
                                  Texts(value.items[k].fields["scopes"]).value));
    forall k | 0 <= k < n ensures value.items[k] == CapabilitiesJson(cs).items[k] {
      CapabilityIsWritten(value.items[k]);
    }
    assert value.items == CapabilitiesJson(cs).items;
  }

  // --------------------------------------------------------------------- the record

  predicate Explained(w: World, reason: string) { 20 <= |w.stripped(reason)| <= 4000 }

  predicate FitDecision(w: World, d: Decision, choices: set<string>) {
    d.impact in choices && Explained(w, d.reason)
  }

  /** Distinct safe files, at most a hundred, that are no records and that the patterns admit. */
  predicate FitFiles(w: World, names: seq<string>, patterns: seq<string>) {
    && |names| <= 100 && Unique(names)
    && (forall name :: name in names ==> SafePath(name) && w.isFile(name))
    && (forall name :: name in names ==> !("docs/platform/changes/" <= name) && MatchesAny(w, patterns, name))
  }

  predicate FitEvidence(w: World, r: Record, categories: Categories)
    requires categories.Keys == {Contracts, Documentation, Tests}
  {
    && FitFiles(w, r.contracts, categories[Contracts])
    && FitFiles(w, r.documentation, categories[Documentation])
    && FitFiles(w, r.tests, categories[Tests])
    && Members(r.contracts) !! Members(r.documentation) && Members(r.contracts) !! Members(r.tests)
    && Members(r.documentation) !! Members(r.tests)
  }

  /** A change for others names what it changed, with evidence from the change; any other names nothing. */
  predicate FitChange(r: Record, changed: set<string>) {
    if r.change == "no_external_change" then
      && r.capabilities == [] && r.contracts == [] && r.documentation == [] && r.tests == []
      && r.cli.impact == "none" && r.gateway.impact == "none"
    else
      && (r.change == "add" || r.change == "update") && r.capabilities != []
      && r.contracts != [] && r.documentation != [] && r.tests != []
      && Members(r.contracts) + Members(r.documentation) + Members(r.tests) <= changed
  }

  predicate Fit(w: World, r: Record, product: string, changed: set<string>, categories: Categories)
    requires categories.Keys == {Contracts, Documentation, Tests}
  {
    && r.product == product && Explained(w, r.reason)
    && FitCapabilities(r.capabilities)
    && FitEvidence(w, r, categories)
    && FitDecision(w, r.cli, {"generic_tools", "release_required", "none"})
    && FitDecision(w, r.gateway, {"adapter_update", "none"})
    && FitChange(r, changed)
  }

  lemma FilesExactly(w: World, names: seq<string>)
    ensures PathsOf(w, TextList(names)) ==
            if |names| <= 100 && Unique(names) && forall name :: name in names ==> SafePath(name) && w.isFile(name)
            then Some(names) else None
  {
    TextsExactly(TextList(names), names);
    if forall k :: 0 <= k < |names| ==> GoodPath(w, names[k]) {
      forall name | name in names ensures SafePath(name) && w.isFile(name) {
        var k :| 0 <= k < |names| && names[k] == name;
        assert GoodPath(w, names[k]);
      }
    }
    if forall name :: name in names ==> SafePath(name) && w.isFile(name) {
      forall k | 0 <= k < |names| ensures GoodPath(w, names[k]) { assert names[k] in names; }
    }
  }

  lemma FieldsOf(r: Record)
    ensures var fields := RecordJson(r).fields;
            && fields.Keys == FIELDS
            && fields["capabilities"] == CapabilitiesJson(r.capabilities)
            && fields["cli"] == DecisionJson(r.cli) && fields["gateway"] == DecisionJson(r.gateway)
            && fields["product"] == Text(r.product) && fields["change"] == Text(r.change)
            && fields["reason"] == Text(r.reason) && fields["version"] == Int(1)
  {
  }

  lemma EvidenceOf(w: World, r: Record)
    ensures var data := RecordJson(r);
            && Evidence(w, data, Contracts) == PathsOf(w, TextList(r.contracts))
            && Evidence(w, data, Documentation) == PathsOf(w, TextList(r.documentation))
            && Evidence(w, data, Tests) == PathsOf(w, TextList(r.tests))
  {
    var fields := RecordJson(r).fields;
    assert fields["contract_files"] == TextList(r.contracts);
    assert fields["documentation_files"] == TextList(r.documentation);
    assert fields["test_files"] == TextList(r.tests);
  }

  lemma EvidenceFitsExactly(w: World, r: Record, categories: Categories)
    requires categories.Keys == {Contracts, Documentation, Tests}
    ensures EvidenceOk(w, RecordJson(r), categories) <==> FitEvidence(w, r, categories)
  {
    var data := RecordJson(r);
    EvidenceOf(w, r);
    FilesExactly(w, r.contracts);
    FilesExactly(w, r.documentation);
    FilesExactly(w, r.tests);
    forall role: Role ensures role in categories { match role case Contracts => case Documentation => case Tests => }
    if Evidence(w, data, Contracts).Some? && Evidence(w, data, Documentation).Some? && Evidence(w, data, Tests).Some? {
      EvidenceParts(w, data, categories, r.contracts, r.documentation, r.tests);
    }
  }

  lemma DecisionFitsExactly(w: World, d: Decision, choices: set<string>)
    ensures DecisionOk(w, DecisionJson(d), choices) <==> FitDecision(w, d, choices)
  {
  }

  lemma HeaderFitsExactly(w: World, r: Record, product: string)
    ensures HeaderOk(w, RecordJson(r), product) <==>
              r.product == product && Explained(w, r.reason)
              && (r.change == "add" || r.change == "update" || r.change == "no_external_change")
  {
    FieldsOf(r);
  }

  /** The evidence of the record is read. */
  predicate Readable(w: World, r: Record) {
    && Evidence(w, RecordJson(r), Contracts) == Some(r.contracts)
    && Evidence(w, RecordJson(r), Documentation) == Some(r.documentation)
    && Evidence(w, RecordJson(r), Tests) == Some(r.tests)
  }

  lemma ReadableRoles(w: World, r: Record)
    requires Readable(w, r)
    ensures forall role: Role :: Evidence(w, RecordJson(r), role).Some?
  {
    ExternalParts(w, RecordJson(r), {}, r.contracts, r.documentation, r.tests);
  }

  lemma ExternalFitsExactly(w: World, r: Record, changed: set<string>)
    requires Readable(w, r)
    ensures forall role: Role :: Evidence(w, RecordJson(r), role).Some?
    ensures ExternalOk(w, RecordJson(r), changed) <==>
              && r.capabilities != [] && r.contracts != [] && r.documentation != [] && r.tests != []
              && Members(r.contracts) + Members(r.documentation) + Members(r.tests) <= changed
  {
    FieldsOf(r);
    ExternalParts(w, RecordJson(r), changed, r.contracts, r.documentation, r.tests);
  }

  lemma InternalFitsExactly(w: World, r: Record)
    requires Readable(w, r)
    ensures forall role: Role :: Evidence(w, RecordJson(r), role).Some?
    ensures {"capabilities", "cli", "gateway"} <= RecordJson(r).fields.Keys
    ensures InternalOk(w, RecordJson(r)) <==>
              && r.capabilities == [] && r.contracts == [] && r.documentation == [] && r.tests == []
              && r.cli.impact == "none" && r.gateway.impact == "none"
  {
    FieldsOf(r);
    InternalParts(w, RecordJson(r), r.contracts, r.documentation, r.tests);
  }

  /** The last rule, once the evidence is read. */
  lemma ChangeFitsExactly(w: World, r: Record, changed: set<string>)
    requires Readable(w, r) && (r.change == "add" || r.change == "update" || r.change == "no_external_change")
    ensures forall role: Role :: Evidence(w, RecordJson(r), role).Some?
    ensures {"capabilities", "cli", "gateway", "change"} <= RecordJson(r).fields.Keys
    ensures (if External(RecordJson(r)) then ExternalOk(w, RecordJson(r), changed) else InternalOk(w, RecordJson(r)))
            <==> FitChange(r, changed)
  {
    FieldsOf(r);
    ExternalFitsExactly(w, r, changed);
    InternalFitsExactly(w, r);
  }

  lemma WrittenRecordFitsExactly(w: World, r: Record, product: string, changed: set<string>, categories: Categories)
    requires categories.Keys == {Contracts, Documentation, Tests}
    ensures ValidRecord(w, RecordJson(r), product, changed, categories) <==> Fit(w, r, product, changed, categories)
  {
    FieldsOf(r);
    HeaderFitsExactly(w, r, product);
    CapabilitiesFitExactly(r.capabilities);
    EvidenceFitsExactly(w, r, categories);
    DecisionFitsExactly(w, r.cli, {"generic_tools", "release_required", "none"});
    DecisionFitsExactly(w, r.gateway, {"adapter_update", "none"});
    if EvidenceOk(w, RecordJson(r), categories) && HeaderOk(w, RecordJson(r), product) {
      EvidenceOf(w, r);
      FilesExactly(w, r.contracts);
      FilesExactly(w, r.documentation);
      FilesExactly(w, r.tests);
      ChangeFitsExactly(w, r, changed);
    }
  }

  lemma DecisionIsWritten(w: World, value: Json, choices: set<string>)
    requires DecisionOk(w, value, choices)
    ensures value == DecisionJson(Decision(value.fields["impact"].text, value.fields["reason"].text))
  {
    assert value.fields == DecisionJson(Decision(value.fields["impact"].text, value.fields["reason"].text)).fields;
  }

  lemma FilesAreWritten(w: World, value: Json)
    requires PathsOf(w, value).Some?
    ensures value == TextList(PathsOf(w, value).value)
  {
    TextsExactly(value, PathsOf(w, value).value);
  }

  lemma ValidRecordIsWritten(w: World, data: Json, product: string, changed: set<string>, categories: Categories)
    requires ValidRecord(w, data, product, changed, categories)
    ensures exists r :: data == RecordJson(r)
  {
    CapabilitiesAreWritten(data.fields["capabilities"]);
    var cs :| data.fields["capabilities"] == CapabilitiesJson(cs);
    DecisionIsWritten(w, data.fields["cli"], {"generic_tools", "release_required", "none"});
    DecisionIsWritten(w, data.fields["gateway"], {"adapter_update", "none"});
    assert Evidence(w, data, Contracts).Some? && Evidence(w, data, Documentation).Some?
           && Evidence(w, data, Tests).Some?;
    FilesAreWritten(w, data.fields["contract_files"]);
    FilesAreWritten(w, data.fields["documentation_files"]);
    FilesAreWritten(w, data.fields["test_files"]);
    FieldsAreWritten(data.fields, Record(product, data.fields["change"].text, data.fields["reason"].text, cs,
      PathsOf(w, data.fields["contract_files"]).value, PathsOf(w, data.fields["documentation_files"]).value,
      PathsOf(w, data.fields["test_files"]).value,
      Decision(data.fields["cli"].fields["impact"].text, data.fields["cli"].fields["reason"].text),
      Decision(data.fields["gateway"].fields["impact"].text, data.fields["gateway"].fields["reason"].text)));
  }

  lemma FieldsAreWritten(fields: map<string, Json>, r: Record)
    requires fields.Keys == FIELDS
    requires fields["version"] == Int(1) && fields["product"] == Text(r.product) && fields["change"] == Text(r.change)
    requires fields["reason"] == Text(r.reason) && fields["capabilities"] == CapabilitiesJson(r.capabilities)
    requires fields["contract_files"] == TextList(r.contracts) && fields["test_files"] == TextList(r.tests)
    requires fields["documentation_files"] == TextList(r.documentation)
    requires fields["cli"] == DecisionJson(r.cli) && fields["gateway"] == DecisionJson(r.gateway)
    ensures Object(fields) == RecordJson(r)
  {
    assert fields == RecordJson(r).fields;
  }

  /** A document is an accepted record exactly when it spells a record that fits: for this product, with
      reasons, distinct capabilities under explicit permissions, distinct admitted files for each role,
      known decisions, and what its kind of change asks for. */
  lemma RecordAcceptedExactly(w: World, data: Json, product: string, changed: set<string>, categories: Categories)
    requires categories.Keys == {Contracts, Documentation, Tests}
    ensures ValidRecord(w, data, product, changed, categories) <==>
              exists r :: data == RecordJson(r) && Fit(w, r, product, changed, categories)
  {
    if ValidRecord(w, data, product, changed, categories) {
      ValidRecordIsWritten(w, data, product, changed, categories);
      var r :| data == RecordJson(r);
      WrittenRecordFitsExactly(w, r, product, changed, categories);
    }
    if r :| data == RecordJson(r) && Fit(w, r, product, changed, categories) {
      WrittenRecordFitsExactly(w, r, product, changed, categories);
    }
  }

  /** A changed record that one policy accepts. */
  ghost predicate Accepted(w: World, name: string, p: Policy, changed: set<string>)
    requires AllRoles(p)
  {
    && SafePath(name) && w.isFile(name) && w.isSmall(name) && w.parsed(name).Some?
    && exists r :: w.parsed(name).value == RecordJson(r) && Fit(w, r, p.product, changed, p.categories)
  }

  lemma AcceptedExactly(w: World, name: string, p: Policy, changed: set<string>)
    requires AllRoles(p)
    ensures RecordAccepted(w, name, p, changed) <==> Accepted(w, name, p, changed)
  {
    if w.parsed(name).Some? { RecordAcceptedExactly(w, w.parsed(name).value, p.product, changed, p.categories); }
  }

  lemma VerdictExactly(w: World, config: Json, changed: set<string>)
    ensures Verdict(w, config, changed).Some? <==>
              && Decoded(config).Some? && Sound(Decoded(config).value) && AllRoles(Decoded(config).value)
              && (Records(changed) == {} ==> Unwatched(w, Decoded(config).value.watched, changed))
              && forall name :: name in Records(changed) ==> Accepted(w, name, Decoded(config).value, changed)
    ensures Verdict(w, config, changed).Some? ==> Verdict(w, config, changed).value == |Records(changed)|
  {
    if Decoded(config).Some? {
      var p := Decoded(config).value;
      ReadPolicyIsWritten(config);
      WellFormedExactly(p);
      forall name ensures RecordAccepted(w, name, p, changed) <==> Accepted(w, name, p, changed) {
        AcceptedExactly(w, name, p, changed);
      }
      if Records(changed) == {} { VerdictWithoutARecord(w, config, changed); }
    }
  }

  /** The gate accepts a change exactly when both policies are sound and for one product, every record it
      changes fits under both, and, if it changes none, it touches nothing that is watched. It reports
      the number of those records. */
  lemma GateAcceptsExactly(w: World, base: Json, config: Json, changed: set<string>)
    ensures GateVerdict(w, base, config, changed).Some? <==>
              && Agreeing(base, config) && AllRoles(Decoded(base).value) && AllRoles(Decoded(config).value)
              && (Records(changed) == {} ==>
                    Unwatched(w, Decoded(base).value.watched, changed)
                    && Unwatched(w, Decoded(config).value.watched, changed))
              && forall name :: name in Records(changed) ==>
                   Accepted(w, name, Decoded(base).value, changed) && Accepted(w, name, Decoded(config).value, changed)
    ensures GateVerdict(w, base, config, changed).Some? ==>
              GateVerdict(w, base, config, changed).value == |Records(changed)|
  {
    VerdictExactly(w, base, changed);
    VerdictExactly(w, config, changed);
  }
}
