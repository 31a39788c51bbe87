/** Reset and verification of a demo tenant described by a manifest. */
module GoldenPath {
  import opened JsonValues
  import opened Options
  import opened ReadText
  import opened Sequences

  datatype Table =
    | Issue | IssueRuleEvaluation | RuntimeDetection | RuntimeDetectionRuleEvaluation | Vulnerability
    | ActivityEvent | Finding | RelationshipAssertion | Asset | CollectionRun | ConnectionValidation

  /** The tables a reset empties, in its order. */
  const TENANT_TABLES := [
    Issue, IssueRuleEvaluation, RuntimeDetection, RuntimeDetectionRuleEvaluation, Vulnerability,
    ActivityEvent, Finding, RelationshipAssertion, Asset, CollectionRun, ConnectionValidation]

  /** The columns the check reads; a table leaves those it does not have unused. */
  datatype Row = Row(tenant: string, kind: string, naturalKey: string, active: bool,
                     source: string, target: string, withdrawn: bool, connector: string)

  /** What a connection is limited to, as configured and as expected; each provider uses its own part. */
  datatype Limits = Limits(repositories: multiset<string>, account: Option<string>, regions: multiset<string>,
                           projects: multiset<string>, resourceNames: multiset<string>,
                           displayNames: map<string, string>)

  datatype Connection = Connection(tenant: string, provider: string, displayName: string, active: bool,
                                   scopes: multiset<string>, configuration: Limits)

  /** Rows by primary key; connections by their id in the database's own spelling. */
  datatype Database = Database(tables: map<Table, map<string, Row>>, connections: map<string, Connection>)

  predicate Complete(db: Database) { forall t: Table :: t in db.tables }

  datatype Expected = Expected(id: string, provider: string, displayName: string,
                               scopes: multiset<string>, boundary: Limits)

  datatype Manifest = Manifest(
    connections: seq<Expected>,
    repositories: set<string>,
    workloads: set<string>,
    deployedBy: seq<(string, string)>,
    forbidden: set<string>,
    budgets: map<string, int>)

  // ------------------------------------------------------------------ the manifest

  const PROVIDERS := {"aws", "gcp", "github"}

  /** White space as Python strips it. */
  predicate Whitespace(c: char) {
    '\t' <= c <= '\r' || '\U{1C}' <= c <= ' ' || c == '\U{85}' || c == '\U{A0}' || c == '\U{1680}'
    || '\U{2000}' <= c <= '\U{200A}' || c == '\U{2028}' || c == '\U{2029}' || c == '\U{202F}'
    || c == '\U{205F}' || c == '\U{3000}'
  }

  predicate Blank(s: string) { forall k :: 0 <= k < |s| ==> Whitespace(s[k]) }

  function Entry(payload: Json, key: string): Json {
    if payload.Object? && key in payload.fields then payload.fields[key] else Null
  }

  /** Numbers and truth values compare equal to one as Python compares them. */
  predicate EqualsOne(value: Json) { value == Int(1) || value == Bool(true) || value == Real(1.0) }

  predicate ConnectionShape(c: Json) {
    && c.Object? && Entry(c, "id").Text?
    && Entry(c, "provider").Text? && Entry(c, "provider").text in PROVIDERS
    && Entry(c, "declared_scopes").List?
  }

  predicate ConnectionsShape(value: Json) {
    && value.List? && value.items != []
    && (forall k :: 0 <= k < |value.items| ==> ConnectionShape(value.items[k]))
    && (forall j, k :: 0 <= j < k < |value.items| ==> Entry(value.items[j], "id") != Entry(value.items[k], "id"))
  }

  predicate ExpectedShape(value: Json) {
    value.Object? && Entry(value, "repositories").List? && Entry(value, "ai_workloads").List?
    && Entry(value, "deployed_by").List?
  }

  /** A budget: an integer, or a truth value, which counts as one. */
  predicate BudgetShape(value: Json) { value.Bool? || (value.Int? && value.n >= 0) }

  /** An absent section is an empty one. */
  predicate BudgetsShape(payload: Json) {
    payload.Object? && "budgets" in payload.fields ==>
      var budgets := payload.fields["budgets"];
      budgets.Object? && forall key :: key in budgets.fields ==> BudgetShape(budgets.fields[key])
  }

  /** The documents that load. */
  predicate Loadable(payload: Json) {
    && payload.Object? && EqualsOne(Entry(payload, "version"))
    && Entry(payload, "name").Text? && !Blank(Entry(payload, "name").text)
    && ConnectionsShape(Entry(payload, "connections"))
    && ExpectedShape(Entry(payload, "expected"))
    && BudgetsShape(payload)
  }

  method LoadConnections(value: Json) returns (ok: bool)
    ensures ok <==> ConnectionsShape(value)
  {
    if !value.List? || value.items == [] { return false; }
    var ids: set<string> := {};
    for n := 0 to |value.items|
      invariant forall k :: 0 <= k < n ==> ConnectionShape(value.items[k])
      invariant forall id :: id in ids <==> exists k :: 0 <= k < n && Entry(value.items[k], "id") == Text(id)
      invariant forall j, k :: 0 <= j < k < n ==> Entry(value.items[j], "id") != Entry(value.items[k], "id")
    {
      var connection := value.items[n];
      if !connection.Object? { return false; }
      var id := Entry(connection, "id");
      if !id.Text? || id.text in ids { return false; }
      ids := ids + {id.text};
      var provider := Entry(connection, "provider");
      if !provider.Text? || provider.text !in PROVIDERS { return false; }
      if !Entry(connection, "declared_scopes").List? { return false; }
    }
    return true;
  }

  method LoadManifest(payload: Json) returns (ok: bool)
    ensures ok <==> Loadable(payload)
  {
    if !payload.Object? || !EqualsOne(Entry(payload, "version")) { return false; }
    var name := Entry(payload, "name");
    if !name.Text? || Blank(name.text) { return false; }
    var connections := LoadConnections(Entry(payload, "connections"));
    if !connections { return false; }
    var expected := Entry(payload, "expected");
    if !expected.Object? { return false; }
    var sections := ["repositories", "ai_workloads", "deployed_by"];
    for n := 0 to |sections|
      invariant forall k :: 0 <= k < n ==> Entry(expected, sections[k]).List?
    {
      if !Entry(expected, sections[n]).List? { return false; }
    }
    assert Entry(expected, sections[0]).List? && Entry(expected, sections[1]).List?
           && Entry(expected, sections[2]).List?;
    if "budgets" !in payload.fields { return true; }
    var budgets := payload.fields["budgets"];
    return budgets.Object? && forall key :: key in budgets.fields ==> BudgetShape(budgets.fields[key]);
  }

  function BudgetOf(value: Json): int {
    if value.Int? then value.n else if value == Bool(true) then 1 else 0
  }

  /** The manifest was read from this document: its connections and budgets are the ones written. */
  ghost predicate ReadFrom(m: Manifest, payload: Json)
    requires Loadable(payload)
  {
    var connections := Entry(payload, "connections").items;
    && |m.connections| == |connections|
    && (forall k :: 0 <= k < |connections| ==>
          Entry(connections[k], "id") == Text(m.connections[k].id)
          && Entry(connections[k], "provider") == Text(m.connections[k].provider))
    && m.budgets == (if "budgets" in payload.fields then
                       map key | key in payload.fields["budgets"].fields ::
                         BudgetOf(payload.fields["budgets"].fields[key])
                     else map[])
  }

  predicate WellFormed(m: Manifest) {
    && m.connections != []
    && (forall j, k :: 0 <= j < k < |m.connections| ==> m.connections[j].id != m.connections[k].id)
    && (forall k :: 0 <= k < |m.connections| ==> m.connections[k].provider in PROVIDERS)
    && (forall key :: key in m.budgets ==> m.budgets[key] >= 0)
  }

  /** A manifest that loads lists connections of known providers under distinct ids, and budgets that
      are not negative. */
  lemma LoadedIsWellFormed(m: Manifest, payload: Json)
    requires Loadable(payload) && ReadFrom(m, payload)
    ensures WellFormed(m)
  {
    var connections := Entry(payload, "connections").items;
    forall j, k | 0 <= j < k < |m.connections| ensures m.connections[j].id != m.connections[k].id {
      assert Entry(connections[j], "id") != Entry(connections[k], "id");
    }
    forall k | 0 <= k < |m.connections| ensures m.connections[k].provider in PROVIDERS {
      assert ConnectionShape(connections[k]);
    }
  }

  function Listed(m: Manifest): set<string> { set k | 0 <= k < |m.connections| :: m.connections[k].id }

  /** The listed ids as the database spells them; None when one is not an id at all. */
  function Preserved(m: Manifest): Option<set<string>> {
    if forall k :: 0 <= k < |m.connections| ==> CanonicalUuid(Lower(m.connections[k].id))
    then Some(set k | 0 <= k < |m.connections| :: Lower(m.connections[k].id))
    else None
  }

  // --------------------------------------------------------------------- the reset

  function Of(rows: map<string, Row>, tenant: string): set<string> {
    set k | k in rows && rows[k].tenant == tenant
  }

  function Unlisted(connections: map<string, Connection>, tenant: string, keep: set<string>): set<string> {
    set id | id in connections && connections[id].tenant == tenant && id !in keep
  }

  datatype Counts = Counts(rows: map<Table, nat>, connections: nat)

  datatype ResetError = Unconfirmed | InvalidId

  function CountsOf(db: Database, tenant: string, keep: set<string>): Counts
    requires Complete(db)
  {
    Counts(map t: Table | t in db.tables :: |Of(db.tables[t], tenant)|, |Unlisted(db.connections, tenant, keep)|)
  }

  function Cleared(db: Database, tenant: string, keep: set<string>): Database
    requires Complete(db)
  {
    Database(map t: Table | t in db.tables :: db.tables[t] - Of(db.tables[t], tenant),
             db.connections - Unlisted(db.connections, tenant, keep))
  }

  function ResetResult(db: Database, tenant: string, m: Manifest, apply: bool, confirmation: Option<string>)
    : Result<Counts, ResetError>
    requires Complete(db)
  {
    if apply && confirmation != Some(tenant) then Failure(Unconfirmed)
    else if Preserved(m) == None then Failure(InvalidId)
    else Success(CountsOf(db, tenant, Preserved(m).value))
  }

  /** The database behind the script. */
  class Store {
    var tables: map<Table, map<string, Row>>
    var connections: map<string, Connection>

    function Contents(): Database
      reads this
    {
      Database(tables, connections)
    }

    constructor (db: Database)
      ensures Contents() == db
    {
      tables, connections := db.tables, db.connections;
    }

    method CountTables(tenant: string) returns (counts: map<Table, nat>)
      requires Complete(Contents())
      ensures counts == map t: Table | t in tables :: |Of(tables[t], tenant)|
    {
      counts := map[];
      for n := 0 to |TENANT_TABLES|
        invariant counts == map t | t in TENANT_TABLES[..n] :: |Of(tables[t], tenant)|
      {
        var table := TENANT_TABLES[n];
        counts := counts[table := |Of(tables[table], tenant)|];
        assert TENANT_TABLES[..n + 1] == TENANT_TABLES[..n] + [table];
      }
      assert TENANT_TABLES[..|TENANT_TABLES|] == TENANT_TABLES;
      EveryTableIsListed();
    }

    method DeleteRows(tenant: string)
      requires Complete(Contents())
      modifies this`tables
      ensures tables == map t: Table | t in old(tables) :: old(tables)[t] - Of(old(tables)[t], tenant)
    {
      for n := 0 to |TENANT_TABLES|
        invariant tables == map t | t in old(tables) ::
                              if t in TENANT_TABLES[..n] then old(tables)[t] - Of(old(tables)[t], tenant)
                              else old(tables)[t]
      {
        var table := TENANT_TABLES[n];
        ListedOnce(n);
        tables := tables[table := tables[table] - Of(tables[table], tenant)];
        assert TENANT_TABLES[..n + 1] == TENANT_TABLES[..n] + [table];
      }
      assert TENANT_TABLES[..|TENANT_TABLES|] == TENANT_TABLES;
      EveryTableIsListed();
    }

    method Reset(tenant: string, m: Manifest, apply: bool, confirmation: Option<string>)
      returns (report: Result<Counts, ResetError>)
      requires Complete(Contents())
      modifies this
      ensures report == ResetResult(old(Contents()), tenant, m, apply, confirmation)
      ensures Contents() ==
              if apply && report.Success? then Cleared(old(Contents()), tenant, Preserved(m).value) else old(Contents())
    {
      if apply && confirmation != Some(tenant) { return Failure(Unconfirmed); }
      var keep := Preserved(m);
      if keep == None { return Failure(InvalidId); }
      var rows := CountTables(tenant);
      var removed := |Unlisted(connections, tenant, keep.value)|;
      if apply {
        DeleteRows(tenant);
        connections := connections - Unlisted(connections, tenant, keep.value);
      }
      return Success(Counts(rows, removed));
    }
  }

  lemma EveryTableIsListed()
    ensures forall t: Table :: t in TENANT_TABLES
  {
    forall t: Table ensures t in TENANT_TABLES {
      match t
      case Issue => assert TENANT_TABLES[0] == t;
      case IssueRuleEvaluation => assert TENANT_TABLES[1] == t;
      case RuntimeDetection => assert TENANT_TABLES[2] == t;
      case RuntimeDetectionRuleEvaluation => assert TENANT_TABLES[3] == t;
      case Vulnerability => assert TENANT_TABLES[4] == t;
      case ActivityEvent => assert TENANT_TABLES[5] == t;
      case Finding => assert TENANT_TABLES[6] == t;
      case RelationshipAssertion => assert TENANT_TABLES[7] == t;
      case Asset => assert TENANT_TABLES[8] == t;
      case CollectionRun => assert TENANT_TABLES[9] == t;
      case ConnectionValidation => assert TENANT_TABLES[10] == t;
    }
  }

  lemma ListedOnce(n: nat)
    requires n < |TENANT_TABLES|
    ensures TENANT_TABLES[n] !in TENANT_TABLES[..n]
  {
  }

  // ------------------------------------------------------------ what a reset removes

  lemma RemovedCount<K, V>(m: map<K, V>, gone: set<K>)
    requires gone <= m.Keys
    ensures |gone| == |m| - |m - gone|
  {
    assert (m - gone).Keys == m.Keys - gone;
    assert |m - gone| == |(m - gone).Keys|;
    assert m.Keys == (m.Keys - gone) + gone;
  }

  lemma CountsAreRemovals(db: Database, tenant: string, keep: set<string>)
    requires Complete(db)
    ensures var db', counts := Cleared(db, tenant, keep), CountsOf(db, tenant, keep);
            && (forall t: Table :: counts.rows[t] == |db.tables[t]| - |db'.tables[t]|)
            && counts.connections == |db.connections| - |db'.connections|
  {
    var db' := Cleared(db, tenant, keep);
    forall t: Table ensures |Of(db.tables[t], tenant)| == |db.tables[t]| - |db'.tables[t]| {
      RemovedCount(db.tables[t], Of(db.tables[t], tenant));
    }
    RemovedCount(db.connections, Unlisted(db.connections, tenant, keep));
  }

  /** What is left of a table: the other tenants' rows, unchanged. */
  ghost predicate OthersOnly(rows: map<string, Row>, rows': map<string, Row>, tenant: string) {
    && (forall k :: k in rows' <==> k in rows && rows[k].tenant != tenant)
    && (forall k :: k in rows' ==> rows'[k] == rows[k])
  }

  lemma ClearedRows(rows: map<string, Row>, tenant: string)
    ensures OthersOnly(rows, rows - Of(rows, tenant), tenant)
  {
  }

  ghost predicate TablesLeft(db: Database, db': Database, tenant: string) {
    Complete(db) && Complete(db') && forall t: Table :: OthersOnly(db.tables[t], db'.tables[t], tenant)
  }

  ghost predicate ConnectionsLeft(db: Database, db': Database, tenant: string, keep: set<string>) {
    && (forall id :: id in db'.connections <==>
          id in db.connections && (db.connections[id].tenant != tenant || id in keep))
    && (forall id :: id in db'.connections ==> db'.connections[id] == db.connections[id])
  }

  lemma ClearedTables(db: Database, tenant: string, keep: set<string>)
    requires Complete(db)
    ensures TablesLeft(db, Cleared(db, tenant, keep), tenant)
  {
    var db' := Cleared(db, tenant, keep);
    forall t: Table ensures OthersOnly(db.tables[t], db'.tables[t], tenant) {
      ClearedRows(db.tables[t], tenant);
    }
  }

  lemma ClearedLinks(db: Database, tenant: string, keep: set<string>)
    requires Complete(db)
    ensures ConnectionsLeft(db, Cleared(db, tenant, keep), tenant, keep)
  {
  }

  /** An applied reset removes exactly the tenant's rows and its unlisted connections: whatever else
      was stored is stored unchanged, and the reported counts are the numbers of rows removed. */
  lemma ResetRemovesExactly(db: Database, tenant: string, keep: set<string>)
    requires Complete(db)
    ensures var db', counts := Cleared(db, tenant, keep), CountsOf(db, tenant, keep);
            && TablesLeft(db, db', tenant) && ConnectionsLeft(db, db', tenant, keep)
            && (forall t: Table :: counts.rows[t] == |db.tables[t]| - |db'.tables[t]|)
            && counts.connections == |db.connections| - |db'.connections|
  {
    CountsAreRemovals(db, tenant, keep);
    ClearedTables(db, tenant, keep);
    ClearedLinks(db, tenant, keep);
  }

  lemma NothingLeft(rows: map<string, Row>, tenant: string)
    ensures Of(rows - Of(rows, tenant), tenant) == {}
    ensures (rows - Of(rows, tenant)) - Of(rows - Of(rows, tenant), tenant) == rows - Of(rows, tenant)
  {
  }

  lemma NoneUnlisted(connections: map<string, Connection>, tenant: string, keep: set<string>)
    ensures var left := connections - Unlisted(connections, tenant, keep);
            Unlisted(left, tenant, keep) == {} && left - Unlisted(left, tenant, keep) == left
  {
  }

  /** A second run, dry or applied, counts nothing and changes nothing. */
  lemma SecondResetFindsNothing(db: Database, tenant: string, keep: set<string>)
    requires Complete(db)
    ensures var db' := Cleared(db, tenant, keep);
            && Complete(db')
            && CountsOf(db', tenant, keep) == Counts(map t: Table | t in db.tables :: 0, 0)
            && Cleared(db', tenant, keep) == db'
  {
    var db' := Cleared(db, tenant, keep);
    NoneUnlisted(db.connections, tenant, keep);
    forall t: Table
      ensures Of(db'.tables[t], tenant) == {} && db'.tables[t] - Of(db'.tables[t], tenant) == db'.tables[t]
    {
      NothingLeft(db.tables[t], tenant);
    }
    assert Cleared(db', tenant, keep).tables == db'.tables;
    assert CountsOf(db', tenant, keep).rows == map t: Table | t in db.tables :: 0;
  }

  // ------------------------------------------------------------------ the tenant verification

  datatype Part = Repositories | Account | Regions | Projects | ResourceNames | DisplayNames

  datatype Problem =
    | ConnectionIds
    | Field(id: string, key: string)
    | Inactive(id: string)
    | Scopes(id: string)
    | Boundary(id: string, part: Part)
    | AssetSet(kind: string)
    | MissingEdge(edge: (string, string))
    | ForbiddenConnectors
    | UnknownBudget(key: string)
    | OverBudget(key: string)

  function Actual(db: Database, tenant: string): set<string> {
    set id | id in db.connections && db.connections[id].tenant == tenant
  }

  /** The manifest's entry for a connection. */
  function ExpectedOf(connections: seq<Expected>, id: string): (r: Option<Expected>)
    ensures r.Some? <==> exists k :: 0 <= k < |connections| && connections[k].id == id
    ensures r.Some? ==> r.value in connections && r.value.id == id
  {
    if connections == [] then None
    else if connections[|connections| - 1].id == id then Some(connections[|connections| - 1])
    else ExpectedOf(connections[..|connections| - 1], id)
  }

  function ActiveAssets(db: Database, tenant: string): set<string>
    requires Complete(db)
  {
    set k | k in db.tables[Asset] && db.tables[Asset][k].tenant == tenant && db.tables[Asset][k].active
  }

  function Observed(db: Database, tenant: string, kind: string): set<string>
    requires Complete(db)
  {
    set k | k in ActiveAssets(db, tenant) && db.tables[Asset][k].kind == kind :: db.tables[Asset][k].naturalKey
  }

  function Edges(db: Database, tenant: string): set<(string, string)>
    requires Complete(db)
  {
    set k | k in db.tables[RelationshipAssertion]
            && db.tables[RelationshipAssertion][k].tenant == tenant
            && db.tables[RelationshipAssertion][k].kind == "deployed_by"
            && !db.tables[RelationshipAssertion][k].withdrawn
            && db.tables[RelationshipAssertion][k].source in db.tables[Asset]
            && db.tables[RelationshipAssertion][k].target in db.tables[Asset] ::
      (db.tables[Asset][db.tables[RelationshipAssertion][k].source].naturalKey,
       db.tables[Asset][db.tables[RelationshipAssertion][k].target].naturalKey)
  }

  function ForbiddenRuns(db: Database, tenant: string, forbidden: set<string>): set<string>
    requires Complete(db)
  {
    set k | k in db.tables[CollectionRun] && db.tables[CollectionRun][k].tenant == tenant
            && db.tables[CollectionRun][k].connector in forbidden :: db.tables[CollectionRun][k].connector
  }

  /** The table a budget key counts. */
  function BudgetTable(key: string): Option<Table> {
    if key == "assets" then Some(Asset)
    else if key == "findings" then Some(Finding)
    else if key == "issues" then Some(Issue)
    else if key == "activities" then Some(ActivityEvent)
    else if key == "vulnerabilities" then Some(Vulnerability)
    else if key == "detections" then Some(RuntimeDetection)
    else if key == "collection_runs" then Some(CollectionRun)
    else None
  }

  /** The parts of a boundary in which a connection differs from its entry, for its provider. */
  predicate Outside(actual: Connection, expected: Limits, part: Part) {
    match part
    case Repositories => actual.provider == "github" && actual.configuration.repositories != expected.repositories
    case Account => actual.provider == "aws" && actual.configuration.account != expected.account
    case Regions => actual.provider == "aws" && actual.configuration.regions != expected.regions
    case Projects => actual.provider == "gcp" && actual.configuration.projects != expected.projects
    case ResourceNames => actual.provider == "gcp" && actual.configuration.resourceNames != expected.resourceNames
    case DisplayNames => actual.provider == "gcp" && actual.configuration.displayNames != expected.displayNames
  }

  method VerifyBoundary(id: string, actual: Connection, expected: Limits) returns (problems: seq<Problem>)
    ensures forall p :: p in problems <==> p.Boundary? && p.id == id && Outside(actual, expected, p.part)
  {
    problems := [];
    var configuration := actual.configuration;
    if actual.provider == "github" {
      if configuration.repositories != expected.repositories { problems := [Boundary(id, Repositories)]; }
    } else if actual.provider == "aws" {
      if configuration.account != expected.account { problems := [Boundary(id, Account)]; }
      if configuration.regions != expected.regions { problems := problems + [Boundary(id, Regions)]; }
    } else if actual.provider == "gcp" {
      if configuration.projects != expected.projects { problems := [Boundary(id, Projects)]; }
      if configuration.resourceNames != expected.resourceNames { problems := problems + [Boundary(id, ResourceNames)]; }
      if configuration.displayNames != expected.displayNames { problems := problems + [Boundary(id, DisplayNames)]; }
    }
  }

  /** A stored connection against its entry. */
  predicate ConnectionProblem(actual: Connection, expected: Expected, p: Problem) {
    match p
    case Field(_, key) =>
      (key == "provider" && actual.provider != expected.provider)
      || (key == "display_name" && actual.displayName != expected.displayName)
    case Inactive(_) => !actual.active
    case Scopes(_) => actual.scopes != expected.scopes
    case Boundary(_, part) => Outside(actual, expected.boundary, part)
    case _ => false
  }

  predicate AboutConnection(p: Problem) { p.Field? || p.Inactive? || p.Scopes? || p.Boundary? }

  /** What the check is to report. */
  predicate Has(db: Database, tenant: string, m: Manifest, p: Problem)
    requires Complete(db)
  {
    match p
    case ConnectionIds => Actual(db, tenant) != Listed(m)
    case AssetSet(kind) =>
      (kind == "code_repository" && Observed(db, tenant, kind) != m.repositories)
      || (kind == "ai_workload" && Observed(db, tenant, kind) != m.workloads)
    case MissingEdge(edge) => edge in m.deployedBy && edge !in Edges(db, tenant)
    case ForbiddenConnectors => ForbiddenRuns(db, tenant, m.forbidden) != {}
    case UnknownBudget(key) => key in m.budgets && BudgetTable(key) == None
    case OverBudget(key) =>
      key in m.budgets && BudgetTable(key).Some? && |Of(db.tables[BudgetTable(key).value], tenant)| > m.budgets[key]
    case _ =>
      p.id in Actual(db, tenant) && ExpectedOf(m.connections, p.id).Some?
      && ConnectionProblem(db.connections[p.id], ExpectedOf(m.connections, p.id).value, p)
  }

  method CheckConnection(id: string, actual: Connection, expected: Expected)
    returns (problems: seq<Problem>)
    ensures forall p :: p in problems <==> AboutConnection(p) && p.id == id && ConnectionProblem(actual, expected, p)
  {
    problems := [];
    if actual.provider != expected.provider { problems := problems + [Field(id, "provider")]; }
    if actual.displayName != expected.displayName { problems := problems + [Field(id, "display_name")]; }
    if !actual.active { problems := problems + [Inactive(id)]; }
    if actual.scopes != expected.scopes { problems := problems + [Scopes(id)]; }
    var outside := VerifyBoundary(id, actual, expected.boundary);
    problems := problems + outside;
  }

  method CheckConnections(db: Database, tenant: string, m: Manifest) returns (problems: seq<Problem>)
    requires Complete(db)
    ensures forall p :: p in problems <==> (p.ConnectionIds? || AboutConnection(p)) && Has(db, tenant, m, p)
  {
    problems := [];
    if Actual(db, tenant) != Listed(m) { problems := [ConnectionIds]; }
    var left := Actual(db, tenant);
    while left != {}
      invariant left <= Actual(db, tenant)
      invariant forall p :: p in problems <==>
                  && (p.ConnectionIds? || (AboutConnection(p) && p.id !in left))
                  && Has(db, tenant, m, p)
    {
      var id :| id in left;
      left := left - {id};
      var expected := ExpectedOf(m.connections, id);
      if expected.Some? {
        var more := CheckConnection(id, db.connections[id], expected.value);
        problems := problems + more;
      }
    }
  }

  /** Natural keys of the tenant's active assets, by kind. */
  method KeysByKind(db: Database, tenant: string) returns (byKind: map<string, set<string>>)
    requires Complete(db)
    ensures forall kind :: (if kind in byKind then byKind[kind] else {}) == Observed(db, tenant, kind)
  {
    byKind := GroupKeys(db.tables[Asset], ActiveAssets(db, tenant));
  }

  function KeysIn(assets: map<string, Row>, ids: set<string>, kind: string): set<string>
    requires ids <= assets.Keys
  {
    set k | k in ids && assets[k].kind == kind :: assets[k].naturalKey
  }

  method GroupKeys(assets: map<string, Row>, ids: set<string>) returns (byKind: map<string, set<string>>)
    requires ids <= assets.Keys
    ensures forall kind :: (if kind in byKind then byKind[kind] else {}) == KeysIn(assets, ids, kind)
  {
    byKind := map[];
    var left := ids;
    while left != {}
      invariant left <= ids
      invariant forall kind :: (if kind in byKind then byKind[kind] else {}) == KeysIn(assets, ids - left, kind)
    {
      var id :| id in left;
      ghost var done := ids - left;
      left := left - {id};
      var kind := assets[id].kind;
      var keys := if kind in byKind then byKind[kind] else {};
      byKind := byKind[kind := keys + {assets[id].naturalKey}];
      KeysGrow(assets, done, id);
      assert ids - left == done + {id};
    }
    assert ids - {} == ids;
  }

  lemma KeysGrow(assets: map<string, Row>, ids: set<string>, id: string)
    requires ids <= assets.Keys && id in assets
    ensures forall kind :: KeysIn(assets, ids + {id}, kind) ==
                           KeysIn(assets, ids, kind) + (if kind == assets[id].kind then {assets[id].naturalKey} else {})
  {
    forall kind
      ensures KeysIn(assets, ids + {id}, kind) ==
              KeysIn(assets, ids, kind) + (if kind == assets[id].kind then {assets[id].naturalKey} else {})
    {
      assert id in ids + {id};
    }
  }

  method MissingEdges(required: seq<(string, string)>, observed: set<(string, string)>) returns (problems: seq<Problem>)
    ensures forall p :: p in problems <==> p.MissingEdge? && p.edge in required && p.edge !in observed
  {
    problems := [];
    for n := 0 to |required|
      invariant forall p :: p in problems <==> p.MissingEdge? && p.edge in required[..n] && p.edge !in observed
    {
      if required[n] !in observed { problems := problems + [MissingEdge(required[n])]; }
      assert required[..n + 1] == required[..n] + [required[n]];
    }
    assert required[..|required|] == required;
  }

  method CheckEvidence(db: Database, tenant: string, m: Manifest) returns (problems: seq<Problem>)
    requires Complete(db)
    ensures forall p :: p in problems <==>
              (p.AssetSet? || p.MissingEdge? || p.ForbiddenConnectors?) && Has(db, tenant, m, p)
  {
    problems := [];
    var byKind := KeysByKind(db, tenant);
    var kind := "code_repository";
    if (if kind in byKind then byKind[kind] else {}) != m.repositories { problems := problems + [AssetSet(kind)]; }
    kind := "ai_workload";
    if (if kind in byKind then byKind[kind] else {}) != m.workloads { problems := problems + [AssetSet(kind)]; }
    var missing := MissingEdges(m.deployedBy, Edges(db, tenant));
    problems := problems + missing;
    if ForbiddenRuns(db, tenant, m.forbidden) != {} { problems := problems + [ForbiddenConnectors]; }
  }

  method CheckBudgets(db: Database, tenant: string, m: Manifest) returns (problems: seq<Problem>)
    requires Complete(db)
    ensures forall p :: p in problems <==> (p.UnknownBudget? || p.OverBudget?) && Has(db, tenant, m, p)
  {
    problems := [];
    var left := m.budgets.Keys;
    while left != {}
      invariant left <= m.budgets.Keys
      invariant forall p :: p in problems <==>
                  && ((p.UnknownBudget? && p.key !in left) || (p.OverBudget? && p.key !in left))
                  && Has(db, tenant, m, p)
    {
      var key :| key in left;
      left := left - {key};
      var table := BudgetTable(key);
      if table == None {
        problems := problems + [UnknownBudget(key)];
      } else if |Of(db.tables[table.value], tenant)| > m.budgets[key] {
        problems := problems + [OverBudget(key)];
      }
    }
  }

  method VerifyTenant(db: Database, tenant: string, m: Manifest)
    returns (passed: bool, problems: seq<Problem>)
    requires Complete(db)
    ensures forall p :: p in problems <==> Has(db, tenant, m, p)
    ensures passed <==> forall p :: !Has(db, tenant, m, p)
  {
    var connections := CheckConnections(db, tenant, m);
    var evidence := CheckEvidence(db, tenant, m);
    var budgets := CheckBudgets(db, tenant, m);
    problems := connections + evidence + budgets;
    passed := problems == [];
    assert problems != [] ==> problems[0] in problems;
  }

  // ---------------------------------------------------- the check after an applied reset

  /** The database spells ids in lower case. */
  predicate CanonicalIds(db: Database) { forall id :: id in db.connections ==> Lower(id) == id }

  lemma ClearedConnections(db: Database, tenant: string, m: Manifest)
    requires Complete(db) && CanonicalIds(db) && Preserved(m).Some?
    ensures var db' := Cleared(db, tenant, Preserved(m).value);
            && (forall id :: id in Actual(db', tenant) ==>
                  id in Actual(db, tenant) && db'.connections[id] == db.connections[id])
            && (forall id :: id in Listed(m) ==> (id in Actual(db', tenant) <==> id in Actual(db, tenant)))
            && (Actual(db', tenant) == Listed(m) <==> Listed(m) <= Actual(db, tenant))
  {
    var keep := Preserved(m).value;
    var db' := Cleared(db, tenant, keep);
    forall id | id in Listed(m) && id in Actual(db, tenant) ensures id in keep {
      var k :| 0 <= k < |m.connections| && m.connections[k].id == id;
      assert Lower(m.connections[k].id) == id;
    }
    if Listed(m) <= Actual(db, tenant) {
      forall id | id in Actual(db', tenant) ensures id in Listed(m) {
        var k :| 0 <= k < |m.connections| && Lower(m.connections[k].id) == id;
        assert m.connections[k].id in Listed(m);
      }
    }
  }

  lemma ClearedEvidence(db: Database, tenant: string, keep: set<string>)
    requires Complete(db)
    ensures var db' := Cleared(db, tenant, keep);
            && Complete(db')
            && (forall kind :: Observed(db', tenant, kind) == {})
            && Edges(db', tenant) == {}
            && (forall forbidden :: ForbiddenRuns(db', tenant, forbidden) == {})
            && (forall t: Table :: Of(db'.tables[t], tenant) == {})
  {
  }

  /** What the check finds right after an applied reset, exactly: no forbidden connector; a budget
      exceeded only where it is negative, so none under a manifest that loads; every expected edge
      missing and every non-empty expected set unmet, because nothing has been collected again; the
      connection ids right unless a listed connection does not exist; and about each connection what
      it found before. */
  lemma VerificationAfterReset(db: Database, tenant: string, m: Manifest, p: Problem)
    requires Complete(db) && CanonicalIds(db) && Preserved(m).Some?
    ensures var db' := Cleared(db, tenant, Preserved(m).value);
            && Complete(db')
            && (Has(db', tenant, m, p) <==>
                  match p
                  case ForbiddenConnectors => false
                  case OverBudget(key) => key in m.budgets && BudgetTable(key).Some? && m.budgets[key] < 0
                  case UnknownBudget(key) => key in m.budgets && BudgetTable(key) == None
                  case MissingEdge(edge) => edge in m.deployedBy
                  case AssetSet(kind) =>
                    (kind == "code_repository" && m.repositories != {}) || (kind == "ai_workload" && m.workloads != {})
                  case ConnectionIds => !(Listed(m) <= Actual(db, tenant))
                  case _ => Has(db, tenant, m, p))
            && (WellFormed(m) ==> !(p.OverBudget? && Has(db', tenant, m, p)))
  {
    ClearedConnections(db, tenant, m);
    ClearedEvidence(db, tenant, Preserved(m).value);
    if AboutConnection(p) && ExpectedOf(m.connections, p.id).Some? {
      assert p.id in Listed(m);
    }
  }
}
