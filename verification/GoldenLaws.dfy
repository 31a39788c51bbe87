/** What the tenant check counts, row by row, and when a tenant passes, said of the rows themselves. */
module GoldenLaws {
  import opened JsonValues
  import opened Options
  import opened ReadText
  import opened Sequences
  import opened GoldenPath

  // ------------------------------------------------------------- one more row counts

  /** The database with one more row. */
  function With(db: Database, t: Table, key: string, row: Row): (db': Database)
    requires Complete(db)
    ensures Complete(db')
  {
    db.(tables := db.tables[t := db.tables[t][key := row]])
  }

  /** An asset counts for its kind exactly when it is an active one of the tenant. */
  lemma EachAssetCounts(db: Database, tenant: string, kind: string, key: string, row: Row)
    requires Complete(db) && key !in db.tables[Asset]
    ensures Observed(With(db, Asset, key, row), tenant, kind) ==
            Observed(db, tenant, kind)
            + (if row.tenant == tenant && row.active && row.kind == kind then {row.naturalKey} else {})
  {
    var db' := With(db, Asset, key, row);
    forall name | name in Observed(db, tenant, kind) ensures name in Observed(db', tenant, kind) {
      var k :| k in ActiveAssets(db, tenant) && db.tables[Asset][k].kind == kind
               && db.tables[Asset][k].naturalKey == name;
      assert k in ActiveAssets(db', tenant) && db'.tables[Asset][k] == db.tables[Asset][k];
    }
    if row.tenant == tenant && row.active && row.kind == kind { assert key in ActiveAssets(db', tenant); }
  }

  /** An assertion counts as an edge between its assets exactly when the tenant asserted it as
      `deployed_by`, it is not withdrawn and both assets are there. */
  lemma EachAssertionCounts(db: Database, tenant: string, key: string, row: Row)
    requires Complete(db) && key !in db.tables[RelationshipAssertion]
    ensures var assets := db.tables[Asset];
            var counts := row.tenant == tenant && row.kind == "deployed_by" && !row.withdrawn
                          && row.source in assets && row.target in assets;
            Edges(With(db, RelationshipAssertion, key, row), tenant) ==
            Edges(db, tenant)
            + (if counts then {(assets[row.source].naturalKey, assets[row.target].naturalKey)} else {})
  {
    var db' := With(db, RelationshipAssertion, key, row);
    var rows, rows' := db.tables[RelationshipAssertion], db'.tables[RelationshipAssertion];
    assert db'.tables[Asset] == db.tables[Asset];
    assert forall k :: k in rows ==> k in rows' && rows'[k] == rows[k];
    assert forall k :: k in rows' ==> k in rows || k == key;
    assert rows'[key] == row;
  }

  /** A collection run is forbidden exactly when the tenant ran it with a forbidden connector. */
  lemma EachRunCounts(db: Database, tenant: string, forbidden: set<string>, key: string, row: Row)
    requires Complete(db) && key !in db.tables[CollectionRun]
    ensures ForbiddenRuns(With(db, CollectionRun, key, row), tenant, forbidden) ==
            ForbiddenRuns(db, tenant, forbidden)
            + (if row.tenant == tenant && row.connector in forbidden then {row.connector} else {})
  {
    var rows, rows' := db.tables[CollectionRun], With(db, CollectionRun, key, row).tables[CollectionRun];
    assert forall k :: k in rows ==> k in rows' && rows'[k] == rows[k];
    assert rows'[key] == row;
  }

  /** A row counts towards its table's budget exactly when it is the tenant's. */
  lemma EachRowCounts(rows: map<string, Row>, tenant: string, key: string, row: Row)
    requires key !in rows
    ensures |Of(rows[key := row], tenant)| == |Of(rows, tenant)| + (if row.tenant == tenant then 1 else 0)
  {
    assert Of(rows[key := row], tenant) == Of(rows, tenant) + (if row.tenant == tenant then {key} else {});
  }

  // -------------------------------------------------------------------- a passing tenant

  /** A stored connection is as its entry says, within the boundary of its provider. */
  predicate AsExpected(actual: Connection, expected: Expected) {
    var found, wanted := actual.configuration, expected.boundary;
    && actual.active
    && actual.provider == expected.provider && actual.displayName == expected.displayName
    && actual.scopes == expected.scopes
    && (actual.provider == "github" ==> found.repositories == wanted.repositories)
    && (actual.provider == "aws" ==> found.account == wanted.account && found.regions == wanted.regions)
    && (actual.provider == "gcp" ==>
          found.projects == wanted.projects && found.resourceNames == wanted.resourceNames
          && found.displayNames == wanted.displayNames)
  }

  lemma AsExpectedExactly(id: string, actual: Connection, expected: Expected)
    ensures AsExpected(actual, expected) <==>
              forall p :: AboutConnection(p) && p.id == id ==> !ConnectionProblem(actual, expected, p)
  {
    if forall p :: AboutConnection(p) && p.id == id ==> !ConnectionProblem(actual, expected, p) {
      assert !ConnectionProblem(actual, expected, Field(id, "provider"));
      assert !ConnectionProblem(actual, expected, Field(id, "display_name"));
      assert !ConnectionProblem(actual, expected, Inactive(id)) && !ConnectionProblem(actual, expected, Scopes(id));
      assert !ConnectionProblem(actual, expected, Boundary(id, Repositories));
      assert !ConnectionProblem(actual, expected, Boundary(id, Account));
      assert !ConnectionProblem(actual, expected, Boundary(id, Regions));
      assert !ConnectionProblem(actual, expected, Boundary(id, Projects));
      assert !ConnectionProblem(actual, expected, Boundary(id, ResourceNames));
      assert !ConnectionProblem(actual, expected, Boundary(id, DisplayNames));
    }
  }

  /** The tenant has exactly the listed connections, each as its entry says. */
  predicate ConnectionsPass(db: Database, tenant: string, m: Manifest) {
    && (forall id :: id in db.connections && db.connections[id].tenant == tenant ==>
          exists k :: 0 <= k < |m.connections| && m.connections[k].id == id)
    && (forall k :: 0 <= k < |m.connections| ==>
          && m.connections[k].id in db.connections
          && db.connections[m.connections[k].id].tenant == tenant
          && AsExpected(db.connections[m.connections[k].id], m.connections[k]))
  }

  lemma EntryOf(m: Manifest, k: nat)
    requires WellFormed(m) && k < |m.connections|
    ensures ExpectedOf(m.connections, m.connections[k].id) == Some(m.connections[k])
  {
    var found := ExpectedOf(m.connections, m.connections[k].id);
    var j :| 0 <= j < |m.connections| && m.connections[j] == found.value;
    assert j == k;
  }

  lemma ConnectionsPassExactly(db: Database, tenant: string, m: Manifest)
    requires Complete(db) && WellFormed(m)
    ensures ConnectionsPass(db, tenant, m) <==>
              forall p: Problem :: p.ConnectionIds? || AboutConnection(p) ==> !Has(db, tenant, m, p)
  {
    if forall p: Problem :: p.ConnectionIds? || AboutConnection(p) ==> !Has(db, tenant, m, p) {
      assert !Has(db, tenant, m, ConnectionIds);
      forall id | id in db.connections && db.connections[id].tenant == tenant
        ensures exists k :: 0 <= k < |m.connections| && m.connections[k].id == id
      {
        assert id in Actual(db, tenant) && Actual(db, tenant) == Listed(m);
      }
      forall k | 0 <= k < |m.connections|
        ensures var id := m.connections[k].id;
                id in Actual(db, tenant) && AsExpected(db.connections[id], m.connections[k])
      {
        NoProblemAt(db, tenant, m, k);
      }
    }
    if ConnectionsPass(db, tenant, m) {
      assert Actual(db, tenant) == Listed(m);
      forall p | AboutConnection(p) ensures !Has(db, tenant, m, p) {
        if p.id in Actual(db, tenant) {
          var k :| 0 <= k < |m.connections| && m.connections[k].id == p.id;
          EntryOf(m, k);
          AsExpectedExactly(p.id, db.connections[p.id], m.connections[k]);
        }
      }
    }
  }

  lemma NoProblemAt(db: Database, tenant: string, m: Manifest, k: nat)
    requires Complete(db) && WellFormed(m) && k < |m.connections| && Actual(db, tenant) == Listed(m)
    requires forall p :: AboutConnection(p) ==> !Has(db, tenant, m, p)
    ensures var id := m.connections[k].id;
            id in Actual(db, tenant) && AsExpected(db.connections[id], m.connections[k])
  {
    var id := m.connections[k].id;
    assert id in Listed(m);
    EntryOf(m, k);
    forall p | AboutConnection(p) && p.id == id ensures !ConnectionProblem(db.connections[id], m.connections[k], p) {
      assert !Has(db, tenant, m, p);
    }
    AsExpectedExactly(id, db.connections[id], m.connections[k]);
  }

  /** The evidence collected is the evidence expected. */
  predicate EvidencePasses(db: Database, tenant: string, m: Manifest)
    requires Complete(db)
  {
    && Observed(db, tenant, "code_repository") == m.repositories
    && Observed(db, tenant, "ai_workload") == m.workloads
    && (forall edge :: edge in m.deployedBy ==> edge in Edges(db, tenant))
    && (forall k :: k in db.tables[CollectionRun] && db.tables[CollectionRun][k].tenant == tenant ==>
          db.tables[CollectionRun][k].connector !in m.forbidden)
  }

  lemma EvidencePassesExactly(db: Database, tenant: string, m: Manifest)
    requires Complete(db)
    ensures EvidencePasses(db, tenant, m) <==>
              forall p: Problem :: p.AssetSet? || p.MissingEdge? || p.ForbiddenConnectors? ==> !Has(db, tenant, m, p)
  {
    if forall p: Problem :: p.AssetSet? || p.MissingEdge? || p.ForbiddenConnectors? ==> !Has(db, tenant, m, p) {
      assert !Has(db, tenant, m, AssetSet("code_repository")) && !Has(db, tenant, m, AssetSet("ai_workload"));
      assert !Has(db, tenant, m, ForbiddenConnectors);
      forall edge | edge in m.deployedBy ensures edge in Edges(db, tenant) {
        assert !Has(db, tenant, m, MissingEdge(edge));
      }
      forall k | k in db.tables[CollectionRun] && db.tables[CollectionRun][k].tenant == tenant
        ensures db.tables[CollectionRun][k].connector !in m.forbidden
      {
        assert db.tables[CollectionRun][k].connector !in ForbiddenRuns(db, tenant, m.forbidden);
      }
    }
  }

  /** Every budget names one of the seven counts and is kept. */
  predicate BudgetsPass(db: Database, tenant: string, m: Manifest)
    requires Complete(db)
  {
    forall key :: key in m.budgets ==>
      || (key == "assets" && |Of(db.tables[Asset], tenant)| <= m.budgets[key])
      || (key == "findings" && |Of(db.tables[Finding], tenant)| <= m.budgets[key])
      || (key == "issues" && |Of(db.tables[Issue], tenant)| <= m.budgets[key])
      || (key == "activities" && |Of(db.tables[ActivityEvent], tenant)| <= m.budgets[key])
      || (key == "vulnerabilities" && |Of(db.tables[Vulnerability], tenant)| <= m.budgets[key])
      || (key == "detections" && |Of(db.tables[RuntimeDetection], tenant)| <= m.budgets[key])
      || (key == "collection_runs" && |Of(db.tables[CollectionRun], tenant)| <= m.budgets[key])
  }

  lemma BudgetsPassExactly(db: Database, tenant: string, m: Manifest)
    requires Complete(db)
    ensures BudgetsPass(db, tenant, m) <==>
              forall p: Problem :: p.UnknownBudget? || p.OverBudget? ==> !Has(db, tenant, m, p)
  {
    if forall p: Problem :: p.UnknownBudget? || p.OverBudget? ==> !Has(db, tenant, m, p) {
      forall key | key in m.budgets
        ensures BudgetTable(key).Some? && |Of(db.tables[BudgetTable(key).value], tenant)| <= m.budgets[key]
      {
        assert !Has(db, tenant, m, UnknownBudget(key)) && !Has(db, tenant, m, OverBudget(key));
      }
    }
  }

  /** A tenant passes exactly with the listed connections as their entries say, the expected evidence
      and no more of it than budgeted. */
  lemma PassesExactly(db: Database, tenant: string, m: Manifest)
    requires Complete(db) && WellFormed(m)
    ensures (forall p :: !Has(db, tenant, m, p)) <==>
              ConnectionsPass(db, tenant, m) && EvidencePasses(db, tenant, m) && BudgetsPass(db, tenant, m)
  {
    ConnectionsPassExactly(db, tenant, m);
    EvidencePassesExactly(db, tenant, m);
    BudgetsPassExactly(db, tenant, m);
  }

  // --------------------------------------------------------------------- the reset's answer

  /** The manifest lists the connection, in some spelling of its id. */
  predicate Keeps(m: Manifest, id: string) {
    exists k :: 0 <= k < |m.connections| && Lower(m.connections[k].id) == id
  }

  /** A reset is refused exactly when it is to be applied without naming the tenant, or when a listed id is
      none; it reports how many of the tenant's rows each table has and how many of its connections
      are not listed. */
  lemma ResetAnswersExactly(db: Database, tenant: string, m: Manifest, apply: bool, confirmation: Option<string>)
    requires Complete(db)
    ensures var r := ResetResult(db, tenant, m, apply, confirmation);
            && (r == Failure(Unconfirmed) <==> apply && (confirmation == None || confirmation.value != tenant))
            && (r == Failure(InvalidId) <==>
                  (apply ==> confirmation == Some(tenant))
                  && exists k :: 0 <= k < |m.connections| && !CanonicalUuid(Lower(m.connections[k].id)))
            && (r.Success? ==>
                  && (forall t: Table :: r.value.rows[t] == |Of(db.tables[t], tenant)|)
                  && r.value.connections ==
                     |set id | id in db.connections && db.connections[id].tenant == tenant && !Keeps(m, id)|)
  {
    if Preserved(m).Some? {
      assert Unlisted(db.connections, tenant, Preserved(m).value) ==
             set id | id in db.connections && db.connections[id].tenant == tenant && !Keeps(m, id);
    }
  }

  // ------------------------------------------------------------------- the manifest's shape

  predicate HasText(value: Json, key: string) { value.Object? && key in value.fields && value.fields[key].Text? }

  predicate HasList(value: Json, key: string) { value.Object? && key in value.fields && value.fields[key].List? }

  /** An entry with a text id, one of the three providers and a list of scopes. */
  predicate UsableEntry(entry: Json) {
    && HasText(entry, "id") && HasText(entry, "provider") && HasList(entry, "declared_scopes")
    && (entry.fields["provider"] == Text("aws") || entry.fields["provider"] == Text("gcp")
        || entry.fields["provider"] == Text("github"))
  }

  predicate UsableEntries(entries: seq<Json>) {
    && entries != []
    && (forall k :: 0 <= k < |entries| ==> UsableEntry(entries[k]))
    && (forall j, k :: 0 <= j < k < |entries| ==> entries[j].fields["id"] != entries[k].fields["id"])
  }

  predicate UsableBudgets(budgets: Json) {
    budgets.Object? && forall key :: key in budgets.fields ==>
      match budgets.fields[key] case Int(n) => n >= 0 case Bool(_) => true case _ => false
  }

  /** A document loads exactly as version one with a name that is not blank, at least one usable entry and
      no id twice, the three lists of what is expected and, if it has budgets, none that is negative. */
  lemma LoadsExactly(payload: Json)
    ensures Loadable(payload) <==>
              && payload.Object? && "version" in payload.fields
              && payload.fields["version"] in {Int(1), Bool(true), Real(1.0)}
              && HasText(payload, "name") && !Blank(payload.fields["name"].text)
              && HasList(payload, "connections") && UsableEntries(payload.fields["connections"].items)
              && "expected" in payload.fields && HasList(payload.fields["expected"], "repositories")
              && HasList(payload.fields["expected"], "ai_workloads")
              && HasList(payload.fields["expected"], "deployed_by")
              && ("budgets" in payload.fields ==> UsableBudgets(payload.fields["budgets"]))
  {
    assert payload.Object? ==> (BudgetsShape(payload) <==>
             ("budgets" in payload.fields ==> UsableBudgets(payload.fields["budgets"])));
    if HasList(payload, "connections") { EntriesExactly(payload.fields["connections"]); }
  }

  lemma EntriesExactly(value: Json)
    requires value.List?
    ensures ConnectionsShape(value) <==> UsableEntries(value.items)
  {
    forall entry ensures ConnectionShape(entry) <==> UsableEntry(entry) { }
    if ConnectionsShape(value) {
      forall j, k | 0 <= j < k < |value.items| ensures value.items[j].fields["id"] != value.items[k].fields["id"] {
        assert ConnectionShape(value.items[j]) && ConnectionShape(value.items[k]);
        assert Entry(value.items[j], "id") != Entry(value.items[k], "id");
      }
    }
  }
}
