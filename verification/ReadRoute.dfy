/** The gateway's named reads: one operation and its query resolved to a route, or refused. */
module ReadRoute {
  import opened Options
  import opened FormCodec
  import opened ReadText
  import opened Sequences

  /** The named reads, and any other name. */
  datatype Operation =
    | ResourceWriteStatus | Context | Connections | ConnectionDetail | ConnectionValidationJob
    | ConnectionCollectionJob | ConnectionSetupStatus | ConnectionAwsTemplate | SharedConnections
    | SharedAwsStatus | SharedAwsTemplate | SharedJiraConnections | SharedJiraStatus | SharedJiraProjects
    | SharedJiraIssues | SharedJiraIssueDetail | InventorySummary | Assets | AssetDetail | SourcesCoverage
    | FindingsSummary | Findings | FindingDetail | VulnerabilitiesSummary | Vulnerabilities
    | VulnerabilityDetail | VulnerabilityImportStatus | IssuesSummary | Issues | IssueDetail
    | IssueEvaluations | CodeToCloudDeployments | CodeToCloudObservations | ActivitySummary | Activity
    | ActivityDetail | RuntimeSessions | RuntimeSessionDetail | RuntimeSessionExport | DetectionsSummary
    | Detections | DetectionDetail | DetectionEvaluations | Unlisted(name: string)

  datatype Identifier = NoId | UuidId | SessionId

  /** A path template in pieces, so that filling a placeholder is a step on pieces. */
  datatype Part = Text(text: string) | IdSlot | ConnectionSlot

  datatype Capability = Capability(path: seq<Part>, filters: set<string>, identifier: Identifier)

  /** Status 404 or 422. */
  datatype RouteError = NotFound | Unprocessable

  /** The resolved path and the query in the order it is written. */
  datatype Route = Route(path: seq<Part>, values: Dict)

  const PAGED: set<string> := {"limit", "offset"}
  const TRIAGED: set<string> := {"state", "severity", "limit", "offset"}

  /** Slots fit the identifier: the reader fills every slot the path has. */
  predicate Fitting(c: Capability) {
    && (IdSlot in c.path <==> c.identifier != NoId)
    && (ConnectionSlot in c.path ==> c.filters == {"connection_id"})
    && "id" !in c.filters
  }

  function List(path: string, filters: set<string>): (c: Option<Capability>)
    requires "id" !in filters
    ensures c.Some? && Fitting(c.value) && c.value.filters == filters
  {
    Some(Capability([Text(path)], filters, NoId))
  }

  function Detail(prefix: string, suffix: string, filters: set<string>): (c: Option<Capability>)
    requires "id" !in filters
    ensures c.Some? && Fitting(c.value) && c.value.filters == filters
  {
    var path := [Text(prefix), IdSlot, Text(suffix)];
    assert path[1] == IdSlot;
    Some(Capability(path, filters, UuidId))
  }

  function Job(suffix: string): (c: Option<Capability>)
    ensures c.Some? && Fitting(c.value)
  {
    var path := [Text("/v1/connections/"), ConnectionSlot, Text(suffix), IdSlot];
    assert path[3] == IdSlot;
    Some(Capability(path, {"connection_id"}, UuidId))
  }

  function Session(suffix: string): (c: Option<Capability>)
    ensures c.Some? && Fitting(c.value)
  {
    var path := [Text("/v1/runtime/sessions/"), IdSlot, Text(suffix)];
    assert path[1] == IdSlot;
    Some(Capability(path, {}, SessionId))
  }

  /** The catalog of named reads. */
  function CapabilityOf(operation: Operation): (c: Option<Capability>)
    ensures c.Some? ==> Fitting(c.value)
    ensures c == None <==> operation.Unlisted?
  {
    match operation
    case ResourceWriteStatus => Detail("/v1/resource-writes/requests/", "", {})
    case Context => List("/v1/context", {})
    case Connections => List("/v1/connection-summaries", PAGED)
    case ConnectionDetail => Detail("/v1/connection-summaries/", "", {})
    case ConnectionValidationJob => Job("/validation-jobs/")
    case ConnectionCollectionJob => Job("/collection-jobs/")
    case ConnectionSetupStatus => Detail("/v1/connection-setup-summaries/", "", {})
    case ConnectionAwsTemplate => Detail("/v1/connection-setup-templates/aws/", "", {})
    case SharedConnections => List("/v1/shared/connection-summaries", PAGED)
    case SharedAwsStatus => Detail("/v1/shared/connection-summaries/aws/", "", {})
    case SharedAwsTemplate => Detail("/v1/shared/connection-setup-templates/aws/", "", {})
    case SharedJiraConnections => List("/internal/v1/shared/jira/connections", PAGED)
    case SharedJiraStatus => Detail("/internal/v1/shared/jira/connections/", "/status", {})
    case SharedJiraProjects => Detail("/internal/v1/shared/jira/connections/", "/projects", {"limit", "cursor"})
    case SharedJiraIssues =>
      Detail("/internal/v1/shared/jira/connections/", "/issues", {"project_id", "limit", "cursor"})
    case SharedJiraIssueDetail =>
      Detail("/internal/v1/shared/jira/connections/", "/issue-detail", {"project_id", "issue_id"})
    case InventorySummary => List("/v1/inventory/summary", {})
    case Assets => List("/v1/inventory/assets", {"kind", "category", "lifecycle", "governance", "q", "limit", "offset"})
    case AssetDetail => Detail("/v1/inventory/assets/", "", {})
    case SourcesCoverage => List("/v1/sources/coverage", {})
    case FindingsSummary => List("/v1/findings/summary", {})
    case Findings => List("/v1/findings", TRIAGED)
    case FindingDetail => Detail("/v1/findings/", "", {})
    case VulnerabilitiesSummary => List("/v1/vulnerabilities/summary", {})
    case Vulnerabilities => List("/v1/vulnerabilities", TRIAGED)
    case VulnerabilityDetail => Detail("/v1/vulnerabilities/", "", {})
    case VulnerabilityImportStatus => Detail("/v1/vulnerabilities/imports/", "", {})
    case IssuesSummary => List("/v1/issues/summary", {})
    case Issues => List("/v1/issues", TRIAGED)
    case IssueDetail => Detail("/v1/issues/", "", {})
    case IssueEvaluations => List("/v1/issues/evaluations", {})
    case CodeToCloudDeployments => List("/v1/code-to-cloud/deployments", PAGED)
    case CodeToCloudObservations => List("/v1/code-to-cloud/observations", PAGED)
    case ActivitySummary => List("/v1/activity/summary", {"include_fixtures"})
    case Activity => List("/v1/activity", {"category", "outcome", "asset_id", "include_fixtures", "limit", "offset"})
    case ActivityDetail => Detail("/v1/activity/", "", {})
    case RuntimeSessions => List("/v1/runtime/sessions", {"provider", "outcome", "limit", "offset"})
    case RuntimeSessionDetail => Session("")
    case RuntimeSessionExport => Session("/export")
    case DetectionsSummary => List("/v1/detections/summary", {})
    case Detections => List("/v1/detections", TRIAGED)
    case DetectionDetail => Detail("/v1/detections/", "", {})
    case DetectionEvaluations => List("/v1/detections/evaluations", {})
    case Unlisted(_) => None
  }

  predicate PagedJira(operation: Operation) { operation.SharedJiraProjects? || operation.SharedJiraIssues? }

  /** The operations whose name starts with `shared-jira-`. */
  predicate Jira(operation: Operation) {
    PagedJira(operation) || operation.SharedJiraConnections? || operation.SharedJiraStatus?
    || operation.SharedJiraIssueDetail?
  }

  predicate CodeToCloud(operation: Operation) {
    operation.CodeToCloudDeployments? || operation.CodeToCloudObservations?
  }

  // --------------------------------------------------- dictionaries in key order

  type Dict = seq<Pair>

  function Get(d: Dict, key: string): Option<string> {
    if d == [] then None else if d[0].0 == key then Some(d[0].1) else Get(d[1..], key)
  }

  function Remove(d: Dict, key: string): Dict {
    if d == [] then [] else if d[0].0 == key then Remove(d[1..], key) else [d[0]] + Remove(d[1..], key)
  }

  /** Assignment: in place when the key is there, at the end when it is new. */
  function Put(d: Dict, key: string, value: string): Dict {
    if d == [] then [(key, value)]
    else if d[0].0 == key then [(key, value)] + d[1..]
    else [d[0]] + Put(d[1..], key, value)
  }

  function Default(d: Dict, key: string, value: string): Dict {
    if Get(d, key) == None then Put(d, key, value) else d
  }

  predicate NamesIn(d: Dict, keys: set<string>) { forall k :: 0 <= k < |d| ==> d[k].0 in keys }

  lemma {:induction false} GetPut(d: Dict, key: string, value: string, other: string)
    ensures Get(Put(d, key, value), other) == if other == key then Some(value) else Get(d, other)
  {
    if d != [] && d[0].0 != key { GetPut(d[1..], key, value, other); }
  }

  lemma {:induction false} PutSame(d: Dict, key: string, value: string)
    requires Get(d, key) == Some(value)
    ensures Put(d, key, value) == d
  {
    if d[0].0 != key { PutSame(d[1..], key, value); }
  }

  lemma {:induction false} GetRemove(d: Dict, key: string, other: string)
    ensures Get(Remove(d, key), other) == if other == key then None else Get(d, other)
  {
    if d != [] { GetRemove(d[1..], key, other); }
  }

  lemma {:induction false} PutNames(d: Dict, key: string, value: string, keys: set<string>)
    requires NamesIn(d, keys) && key in keys
    ensures NamesIn(Put(d, key, value), keys)
  {
    if d != [] && d[0].0 != key { PutNames(d[1..], key, value, keys); }
  }

  lemma {:induction false} RemoveNames(d: Dict, key: string, keys: set<string>)
    requires NamesIn(d, keys)
    ensures NamesIn(Remove(d, key), keys - {key})
  {
    if d != [] { RemoveNames(d[1..], key, keys); }
  }

  // ------------------------------------------------------------------- the reader

  function Fill(path: seq<Part>, slot: Part, text: string): seq<Part> {
    seq(|path|, k requires 0 <= k < |path| => if path[k] == slot then Text(text) else path[k])
  }

  function Uuid(raw: string): Option<string> {
    if CanonicalUuid(Lower(raw)) then Some(Lower(raw)) else None
  }

  /** The identifier a raw `id` stands for, or the reason it is refused. */
  function IdText(kind: Identifier, raw: Option<string>): Result<string, RouteError>
    requires kind != NoId
  {
    if raw == None then Failure(Unprocessable)
    else if kind == SessionId then
      if SessionKey(raw.value) then Success(raw.value) else Failure(Unprocessable)
    else
      var id := Uuid(raw.value);
      if id.Some? then Success(id.value) else Failure(Unprocessable)
  }

  function ConnectionText(raw: Option<string>): Result<string, RouteError> {
    if raw.Some? && CanonicalUuid(raw.value) then Success(raw.value)
    else Failure(Unprocessable)
  }

  /** The identifier moves from the query into the path. */
  function Identified(capability: Capability, d: Dict): Result<Route, RouteError> {
    if capability.identifier == NoId then Success(Route(capability.path, d))
    else
      var id :- IdText(capability.identifier, Get(d, "id"));
      Success(Route(Fill(capability.path, IdSlot, id), Remove(d, "id")))
  }

  function Connected(route: Route): Result<Route, RouteError> {
    if ConnectionSlot in route.path then
      var connection :- ConnectionText(Get(route.values, "connection_id"));
      Success(Route(Fill(route.path, ConnectionSlot, connection), Remove(route.values, "connection_id")))
    else Success(route)
  }

  function Located(capability: Capability, d: Dict): Result<Route, RouteError> {
    var named :- Identified(capability, d);
    Connected(named)
  }

  function WithAsset(d: Dict): Result<Dict, RouteError> {
    var raw := Get(d, "asset_id");
    if raw == None then Success(d)
    else
      var id := Uuid(raw.value);
      if id == None then Failure(Unprocessable) else Success(Put(d, "asset_id", id.value))
  }

  function WithNumber(d: Dict, strict: bool, name: string, minimum: nat, maximum: nat): Result<Dict, RouteError> {
    var raw := Get(d, name);
    if raw == None then Success(d)
    else
      var n := ParseInt(raw.value);
      if (strict && !CanonicalDecimal(raw.value)) || n == None || !(minimum <= n.value <= maximum)
      then Failure(Unprocessable)
      else Success(Put(d, name, Decimal(n.value)))
  }

  function LimitBound(operation: Operation): nat { if PagedJira(operation) then 50 else 100 }

  /** The identifiers and cursor of the shared Jira reads. */
  predicate JiraFits(operation: Operation, d: Dict) {
    Jira(operation) ==>
      && (operation.SharedJiraIssues? || operation.SharedJiraIssueDetail? ==>
            Get(d, "project_id").Some? && ProjectId(Get(d, "project_id").value))
      && (operation.SharedJiraIssueDetail? ==> Get(d, "issue_id").Some? && IssueId(Get(d, "issue_id").value))
      && (Get(d, "cursor").Some? ==> Cursor(Get(d, "cursor").value))
  }

  predicate TextFits(d: Dict) {
    && (Get(d, "q").Some? ==> |Get(d, "q").value| <= 200)
    && (Get(d, "kind").Some? ==> |Get(d, "kind").value| <= 100)
    && (Get(d, "include_fixtures").Some? ==> Get(d, "include_fixtures").value in {"true", "false"})
  }

  function Defaulted(operation: Operation, d: Dict): Dict {
    if PagedJira(operation) then Default(d, "limit", "20")
    else if CodeToCloud(operation) then Default(d, "limit", "100")
    else d
  }

  function Filtered(operation: Operation, d: Dict): Result<Dict, RouteError> {
    var assets :- WithAsset(d);
    var paged :- Numbered(Jira(operation), LimitBound(operation), assets);
    if !JiraFits(operation, paged) then Failure(Unprocessable)
    else if !TextFits(paged) then Failure(Unprocessable)
    else Success(Defaulted(operation, paged))
  }

  function Allowed(capability: Capability): set<string> {
    capability.filters + (if capability.identifier == NoId then {} else {"id"})
  }

  /** The reader once the operation is known. */
  function RouteVia(operation: Operation, capability: Capability, pairs: Dict): Result<Route, RouteError> {
    if !UniqueKeys(pairs) then Failure(Unprocessable)
    else if !NamesIn(pairs, Allowed(capability)) then Failure(Unprocessable)
    else
      var located :- Located(capability, pairs);
      var values :- Filtered(operation, located.values);
      Success(Route(located.path, values))
  }

  function RouteOf(operation: Operation, pairs: Dict): Result<Route, RouteError> {
    var capability := CapabilityOf(operation);
    if capability == None then Failure(NotFound) else RouteVia(operation, capability.value, pairs)
  }

  method ResolveRead(operation: Operation, pairs: Dict) returns (route: Result<Route, RouteError>)
    ensures route == RouteOf(operation, pairs)
  {
    var found := CapabilityOf(operation);
    if found == None { return Failure(NotFound); }
    route := ResolveVia(operation, found.value, pairs);
  }

  method ResolveVia(operation: Operation, capability: Capability, pairs: Dict)
    returns (route: Result<Route, RouteError>)
    ensures route == RouteVia(operation, capability, pairs)
  {
    if !UniqueKeys(pairs) || !NamesIn(pairs, Allowed(capability)) { return Failure(Unprocessable); }
    var located := FillPath(capability, pairs);
    if located.Failure? { return Failure(located.error); }
    var filtered := FilterValues(operation, located.value.values);
    route := if filtered.Failure? then Failure(filtered.error) else Success(Route(located.value.path, filtered.value));
  }

  method FillPath(capability: Capability, pairs: Dict) returns (route: Result<Route, RouteError>)
    ensures route == Located(capability, pairs)
  {
    var values, path := pairs, capability.path;
    if capability.identifier != NoId {
      var id := IdText(capability.identifier, Get(values, "id"));
      if id.Failure? { return Failure(id.error); }
      values := Remove(values, "id");
      path := Fill(path, IdSlot, id.value);
    }
    if ConnectionSlot in path {
      var connection := ConnectionText(Get(values, "connection_id"));
      if connection.Failure? { return Failure(connection.error); }
      values := Remove(values, "connection_id");
      path := Fill(path, ConnectionSlot, connection.value);
    }
    return Success(Route(path, values));
  }

  method FilterValues(operation: Operation, d: Dict) returns (r: Result<Dict, RouteError>)
    ensures r == Filtered(operation, d)
  {
    var values := d;
    var asset := Get(values, "asset_id");
    if asset.Some? {
      var id := Uuid(asset.value);
      if id == None { return Failure(Unprocessable); }
      values := Put(values, "asset_id", id.value);
    }
    assert WithAsset(d) == Success(values);
    var numbers := FilterNumbers(Jira(operation), LimitBound(operation), values);
    if numbers.Failure? { return Failure(numbers.error); }
    if !JiraFits(operation, numbers.value) || !TextFits(numbers.value) { return Failure(Unprocessable); }
    return Success(Defaulted(operation, numbers.value));
  }

  /** Both number filters, limit first. */
  function Numbered(strict: bool, bound: nat, d: Dict): Result<Dict, RouteError> {
    var limited :- WithNumber(d, strict, "limit", 1, bound);
    WithNumber(limited, strict, "offset", 0, 100_000)
  }

  method FilterNumbers(strict: bool, bound: nat, d: Dict) returns (r: Result<Dict, RouteError>)
    ensures r == Numbered(strict, bound, d)
  {
    var values := d;
    var numbers := [("limit", 1, bound), ("offset", 0, 100_000)];
    for k := 0 to |numbers|
      invariant k == 0 ==> values == d
      invariant k == 1 ==> WithNumber(d, strict, "limit", 1, bound) == Success(values)
      invariant k == 2 ==> Numbered(strict, bound, d) == Success(values)
    {
      var (name, minimum, maximum) := numbers[k];
      var text := Get(values, name);
      if text.Some? {
        var number := ParseInt(text.value);
        if (strict && !CanonicalDecimal(text.value)) || number == None || !(minimum <= number.value <= maximum) {
          return Failure(Unprocessable);
        }
        values := Put(values, name, Decimal(number.value));
      }
    }
    return Success(values);
  }

  // ------------------------------------------------------- accepted routes are clean

  predicate Number(text: Option<string>, minimum: nat, maximum: nat) {
    text.Some? ==> exists n: nat :: minimum <= n <= maximum && text.value == Decimal(n)
  }

  /** What an accepted query looks like: fixed under everything the reader does. */
  predicate Canonical(operation: Operation, d: Dict) {
    && Number(Get(d, "limit"), 1, LimitBound(operation))
    && Number(Get(d, "offset"), 0, 100_000)
    && (Get(d, "asset_id").Some? ==> Uuid(Get(d, "asset_id").value) == Get(d, "asset_id"))
    && JiraFits(operation, d) && TextFits(d)
    && (PagedJira(operation) || CodeToCloud(operation) ==> Get(d, "limit").Some?)
  }

  lemma DefaultedReadsTakeALimit(operation: Operation)
    requires PagedJira(operation) || CodeToCloud(operation)
    ensures CapabilityOf(operation).Some? && "limit" in CapabilityOf(operation).value.filters
  {
    if operation.SharedJiraProjects? {
      assert CapabilityOf(SharedJiraProjects).value.filters == {"limit", "cursor"};
    } else if operation.SharedJiraIssues? {
      assert CapabilityOf(SharedJiraIssues).value.filters == {"project_id", "limit", "cursor"};
    } else if operation.CodeToCloudDeployments? {
      assert CapabilityOf(CodeToCloudDeployments).value.filters == PAGED;
    } else {
      assert CapabilityOf(CodeToCloudObservations).value.filters == PAGED;
    }
  }

  lemma NumberShape(d: Dict, strict: bool, name: string, minimum: nat, maximum: nat)
    requires WithNumber(d, strict, name, minimum, maximum).Success?
    ensures var r := WithNumber(d, strict, name, minimum, maximum).value;
            && Number(Get(r, name), minimum, maximum)
            && (Get(r, name).Some? <==> Get(d, name).Some?)
            && forall key :: key != name ==> Get(r, key) == Get(d, key)
  {
    var raw := Get(d, name);
    if raw.Some? {
      var n := ParseInt(raw.value).value;
      forall key ensures Get(Put(d, name, Decimal(n)), key) == if key == name then Some(Decimal(n)) else Get(d, key) {
        GetPut(d, name, Decimal(n), key);
      }
    }
  }

  lemma AssetShape(d: Dict)
    requires WithAsset(d).Success?
    ensures var r := WithAsset(d).value;
            && (Get(r, "asset_id").Some? ==> Uuid(Get(r, "asset_id").value) == Get(r, "asset_id"))
            && forall key :: key != "asset_id" ==> Get(r, key) == Get(d, key)
  {
    var raw := Get(d, "asset_id");
    if raw.Some? {
      LowerOfLower(raw.value);
      forall key ensures Get(Put(d, "asset_id", Lower(raw.value)), key) ==
                         if key == "asset_id" then Some(Lower(raw.value)) else Get(d, key) {
        GetPut(d, "asset_id", Lower(raw.value), key);
      }
    }
  }

  lemma DefaultTexts()
    ensures Decimal(20) == "20" && Decimal(100) == "100"
    ensures Number(Some("20"), 1, 50) && Number(Some("100"), 1, 100)
  {
    assert Decimal(2) == "2" && Decimal(20) == "20";
    assert Decimal(1) == "1" && Decimal(10) == "10" && Decimal(100) == "100";
  }

  lemma DefaultIsPut(d: Dict, text: string)
    ensures var r := Default(d, "limit", text);
            && (forall key :: key != "limit" ==> Get(r, key) == Get(d, key))
            && Get(r, "limit") == Some(Get(d, "limit").GetOr(text))
            && (Get(d, "limit").Some? ==> r == d)
  {
    forall key ensures Get(Put(d, "limit", text), key) == if key == "limit" then Some(text) else Get(d, key) {
      GetPut(d, "limit", text, key);
    }
  }

  lemma DefaultShape(operation: Operation, d: Dict)
    ensures var r := Defaulted(operation, d);
            && (forall key :: key != "limit" ==> Get(r, key) == Get(d, key))
            && (Get(d, "limit").Some? ==> r == d)
            && (Number(Get(d, "limit"), 1, LimitBound(operation)) ==> Number(Get(r, "limit"), 1, LimitBound(operation)))
            && (PagedJira(operation) || CodeToCloud(operation) ==> Get(r, "limit").Some?)
  {
    DefaultTexts();
    DefaultIsPut(d, if PagedJira(operation) then "20" else "100");
  }

  lemma FitsCarry(operation: Operation, d: Dict, r: Dict)
    requires forall key :: key != "limit" ==> Get(r, key) == Get(d, key)
    ensures JiraFits(operation, d) ==> JiraFits(operation, r)
    ensures TextFits(d) ==> TextFits(r)
  {
  }

  lemma StagesAreCanonical(operation: Operation, assets: Dict, limited: Dict, paged: Dict, r: Dict)
    requires Get(assets, "asset_id").Some? ==> Uuid(Get(assets, "asset_id").value) == Get(assets, "asset_id")
    requires Number(Get(limited, "limit"), 1, LimitBound(operation))
    requires forall key :: key != "limit" ==> Get(limited, key) == Get(assets, key)
    requires Number(Get(paged, "offset"), 0, 100_000)
    requires forall key :: key != "offset" ==> Get(paged, key) == Get(limited, key)
    requires JiraFits(operation, paged) && TextFits(paged)
    requires r == Defaulted(operation, paged)
    ensures Canonical(operation, r)
  {
    DefaultShape(operation, paged);
    FitsCarry(operation, paged, r);
    assert Get(r, "asset_id") == Get(paged, "asset_id") == Get(limited, "asset_id") == Get(assets, "asset_id");
    assert Get(r, "offset") == Get(paged, "offset") && Get(paged, "limit") == Get(limited, "limit");
  }

  lemma FilteredIsCanonical(operation: Operation, d: Dict)
    requires Filtered(operation, d).Success?
    ensures Canonical(operation, Filtered(operation, d).value)
  {
    var assets := WithAsset(d).value;
    AssetShape(d);
    var limited := WithNumber(assets, Jira(operation), "limit", 1, LimitBound(operation)).value;
    NumberShape(assets, Jira(operation), "limit", 1, LimitBound(operation));
    var paged := WithNumber(limited, Jira(operation), "offset", 0, 100_000).value;
    NumberShape(limited, Jira(operation), "offset", 0, 100_000);
    StagesAreCanonical(operation, assets, limited, paged, Defaulted(operation, paged));
  }

  /** Everything the reader does to a canonical query leaves it as it is. */
  lemma CanonicalIsFixed(operation: Operation, d: Dict)
    requires Canonical(operation, d)
    ensures Filtered(operation, d) == Success(d)
  {
    if Get(d, "asset_id").Some? { PutSame(d, "asset_id", Get(d, "asset_id").value); }
    assert WithAsset(d) == Success(d);
    NumberIsFixed(d, Jira(operation), "limit", 1, LimitBound(operation));
    NumberIsFixed(d, Jira(operation), "offset", 0, 100_000);
    DefaultShape(operation, d);
  }

  lemma NumberIsFixed(d: Dict, strict: bool, name: string, minimum: nat, maximum: nat)
    requires Number(Get(d, name), minimum, maximum) && maximum <= 100_000
    ensures WithNumber(d, strict, name, minimum, maximum) == Success(d)
  {
    if Get(d, name).Some? {
      var n: nat :| minimum <= n <= maximum && Get(d, name).value == Decimal(n);
      ParsePrinted(n);
      ShortDecimal(n);
      PutSame(d, name, Decimal(n));
    }
  }

  /** What a piece of the template becomes: text stays, the identifier slot gets the canonical form of
      the given id, and the connection slot the given, canonical, connection id. */
  predicate FilledPart(kind: Identifier, pairs: Dict, template: Part, part: Part) {
    && part.Text?
    && (match template
        case Text(_) => part == template
        case IdSlot =>
          && Get(pairs, "id").Some?
          && (if kind == SessionId then SessionKey(part.text) && part.text == Get(pairs, "id").value
              else CanonicalUuid(part.text) && part.text == Lower(Get(pairs, "id").value))
        case ConnectionSlot =>
          CanonicalUuid(part.text) && Get(pairs, "connection_id") == Some(part.text))
  }

  predicate FilledPath(c: Capability, pairs: Dict, path: seq<Part>) {
    |path| == |c.path| && forall k :: 0 <= k < |path| ==> FilledPart(c.identifier, pairs, c.path[k], path[k])
  }

  lemma LocatedPath(c: Capability, pairs: Dict)
    requires Fitting(c) && Located(c, pairs).Success?
    ensures FilledPath(c, pairs, Located(c, pairs).value.path)
  {
    var named, path := Identified(c, pairs).value, Located(c, pairs).value.path;
    GetRemove(pairs, "id", "connection_id");
    forall k | 0 <= k < |c.path| ensures FilledPart(c.identifier, pairs, c.path[k], path[k]) {
      assert c.path[k] in c.path;
      if c.path[k] == ConnectionSlot { assert named.path[k] == ConnectionSlot && ConnectionSlot in named.path; }
    }
  }

  /** The path is the filled template and the query canonical, its limit within the bound of the read. */
  ghost predicate Clean(operation: Operation, c: Capability, pairs: Dict, route: Route) {
    && FilledPath(c, pairs, route.path)
    && Canonical(operation, route.values)
    && Number(Get(route.values, "limit"), 1,
              if operation.SharedJiraProjects? || operation.SharedJiraIssues? then 50 else 100)
  }

  lemma ViaIsClean(operation: Operation, c: Capability, pairs: Dict)
    requires Fitting(c) && RouteVia(operation, c, pairs).Success?
    ensures Clean(operation, c, pairs, RouteVia(operation, c, pairs).value)
  {
    LocatedPath(c, pairs);
    FilteredIsCanonical(operation, Located(c, pairs).value.values);
  }

  /** An accepted route is its template with every placeholder replaced by a canonical form of the
      identifier given for it, and its numbers are in range and canonical. */
  lemma AcceptedRouteIsClean(operation: Operation, pairs: Dict)
    ensures RouteOf(operation, pairs).Success? ==>
              && CapabilityOf(operation).Some?
              && Clean(operation, CapabilityOf(operation).value, pairs, RouteOf(operation, pairs).value)
  {
    if RouteOf(operation, pairs).Success? { ViaIsClean(operation, CapabilityOf(operation).value, pairs); }
  }

  // ------------------------------------------------------------------ resubmission

  predicate Lacks(d: Dict, key: string) { forall k :: 0 <= k < |d| ==> d[k].0 != key }

  lemma {:induction false} RemoveUnique(d: Dict, key: string)
    requires UniqueKeys(d)
    ensures UniqueKeys(Remove(d, key)) && Lacks(Remove(d, key), key)
    ensures forall other :: Lacks(d, other) ==> Lacks(Remove(d, key), other)
  {
    if d != [] {
      RemoveUnique(d[1..], key);
      assert Lacks(d[1..], d[0].0);
      forall other | Lacks(d, other) ensures Lacks(Remove(d, key), other) {
        assert d[0].0 != other && Lacks(d[1..], other);
      }
    }
  }

  lemma {:induction false} RemoveLacking(d: Dict, key: string)
    requires Lacks(d, key)
    ensures Remove(d, key) == d && Get(d, key) == None
  {
    if d != [] { RemoveLacking(d[1..], key); }
  }

  lemma {:induction false} PutUnique(d: Dict, key: string, value: string)
    requires UniqueKeys(d)
    ensures UniqueKeys(Put(d, key, value))
    ensures forall other :: other != key && Lacks(d, other) ==> Lacks(Put(d, key, value), other)
  {
    if d != [] && d[0].0 != key {
      PutUnique(d[1..], key, value);
      assert Lacks(d[1..], d[0].0);
      forall other | other != key && Lacks(d, other) ensures Lacks(Put(d, key, value), other) {
        assert d[0].0 != other && Lacks(d[1..], other);
      }
    }
  }

  /** Filtering keeps names unique and within the filters, and brings no other name back. */
  predicate Within(d: Dict, filters: set<string>, gone: string) {
    UniqueKeys(d) && NamesIn(d, filters) && Lacks(d, gone)
  }

  lemma PutWithin(d: Dict, key: string, value: string, filters: set<string>, gone: string)
    requires Within(d, filters, gone) && key in filters && key != gone
    ensures Within(Put(d, key, value), filters, gone)
  {
    PutUnique(d, key, value);
    PutNames(d, key, value, filters);
  }

  lemma {:induction false} GetNamed(d: Dict, key: string, filters: set<string>)
    requires NamesIn(d, filters) && Get(d, key).Some?
    ensures key in filters
  {
    if d[0].0 != key { GetNamed(d[1..], key, filters); }
  }

  lemma AssetWithin(d: Dict, filters: set<string>, gone: string)
    requires Within(d, filters, gone) && gone != "asset_id" && WithAsset(d).Success?
    ensures Within(WithAsset(d).value, filters, gone)
  {
    if Get(d, "asset_id").Some? {
      GetNamed(d, "asset_id", filters);
      PutWithin(d, "asset_id", Lower(Get(d, "asset_id").value), filters, gone);
    }
  }

  lemma DefaultWithin(operation: Operation, d: Dict, filters: set<string>, gone: string)
    requires Within(d, filters, gone) && gone != "limit"
    requires PagedJira(operation) || CodeToCloud(operation) ==> "limit" in filters
    ensures Within(Defaulted(operation, d), filters, gone)
  {
    if PagedJira(operation) {
      PutWithin(d, "limit", "20", filters, gone);
    } else if CodeToCloud(operation) {
      PutWithin(d, "limit", "100", filters, gone);
    }
  }

  lemma FilteredWithin(operation: Operation, d: Dict, filters: set<string>, gone: string)
    requires Within(d, filters, gone) && Filtered(operation, d).Success?
    requires gone != "asset_id" && gone != "limit" && gone != "offset"
    requires PagedJira(operation) || CodeToCloud(operation) ==> "limit" in filters
    ensures Within(Filtered(operation, d).value, filters, gone)
  {
    AssetWithin(d, filters, gone);
    var assets := WithAsset(d).value;
    NumberWithin(assets, Jira(operation), "limit", 1, LimitBound(operation), filters, gone);
    var limited := WithNumber(assets, Jira(operation), "limit", 1, LimitBound(operation)).value;
    NumberWithin(limited, Jira(operation), "offset", 0, 100_000, filters, gone);
    var paged := WithNumber(limited, Jira(operation), "offset", 0, 100_000).value;
    DefaultWithin(operation, paged, filters, gone);
    assert Filtered(operation, d).value == Defaulted(operation, paged);
  }

  lemma NumberWithin(d: Dict, strict: bool, name: string, minimum: nat, maximum: nat, filters: set<string>,
                     gone: string)
    requires Within(d, filters, gone) && name != gone && WithNumber(d, strict, name, minimum, maximum).Success?
    ensures Within(WithNumber(d, strict, name, minimum, maximum).value, filters, gone)
  {
    if Get(d, name).Some? {
      GetNamed(d, name, filters);
      PutWithin(d, name, Decimal(ParseInt(Get(d, name).value).value), filters, gone);
    }
  }

  lemma {:induction false} NamesWithout(d: Dict, key: string, filters: set<string>)
    requires NamesIn(d, filters + {key}) && Lacks(d, key)
    ensures NamesIn(d, filters)
  {
    forall k | 0 <= k < |d| ensures d[k].0 in filters { assert d[k].0 in filters + {key} && d[k].0 != key; }
  }

  /** The values an accepted query leaves, with the same identifiers put back in front. */
  function Resubmitted(c: Capability, pairs: Dict, values: Dict): Dict {
    (if c.identifier == NoId then [] else [("id", Get(pairs, "id").GetOr(""))])
    + (if ConnectionSlot in c.path then [("connection_id", Get(pairs, "connection_id").GetOr(""))] else [])
    + values
  }

  lemma LocatedWithin(c: Capability, pairs: Dict)
    requires Fitting(c) && UniqueKeys(pairs) && NamesIn(pairs, Allowed(c)) && Located(c, pairs).Success?
    ensures var d := Located(c, pairs).value.values;
            Within(d, c.filters, "id") && (ConnectionSlot in c.path ==> Lacks(d, "connection_id"))
  {
    var named := if c.identifier == NoId then pairs else Remove(pairs, "id");
    if c.identifier == NoId {
      assert Lacks(pairs, "id");
    } else {
      RemoveUnique(pairs, "id");
      RemoveNames(pairs, "id", Allowed(c));
      NamesWithout(named, "id", c.filters);
    }
    FillKeepsConnection(c);
    RemoveUnique(named, "connection_id");
    RemoveNames(named, "connection_id", c.filters);
  }

  lemma FillKeepsConnection(c: Capability)
    ensures forall id :: ConnectionSlot in Fill(c.path, IdSlot, id) <==> ConnectionSlot in c.path
  {
    forall id ensures ConnectionSlot in Fill(c.path, IdSlot, id) <==> ConnectionSlot in c.path {
      var filled := Fill(c.path, IdSlot, id);
      if ConnectionSlot in c.path {
        var k :| 0 <= k < |c.path| && c.path[k] == ConnectionSlot;
        assert filled[k] == ConnectionSlot;
      }
    }
  }

  /** The connection id, when the path has room for it, in front of the values. */
  function WithConnection(path: seq<Part>, raw: Option<string>, values: Dict): Dict {
    if ConnectionSlot in path then [("connection_id", raw.GetOr(""))] + values else values
  }

  lemma ConnectedAgain(path: seq<Part>, before: Dict, values: Dict)
    requires Connected(Route(path, before)).Success?
    requires ConnectionSlot in path ==> Lacks(values, "connection_id")
    ensures Connected(Route(path, WithConnection(path, Get(before, "connection_id"), values))) ==
            Success(Route(Connected(Route(path, before)).value.path, values))
  {
    if ConnectionSlot in path {
      var again := WithConnection(path, Get(before, "connection_id"), values);
      assert again[1..] == values;
      RemoveLacking(values, "connection_id");
    }
  }

  lemma IdentifiedAgain(c: Capability, pairs: Dict, rest: Dict)
    requires c.identifier != NoId && Identified(c, pairs).Success? && Lacks(rest, "id")
    ensures Identified(c, [("id", Get(pairs, "id").GetOr(""))] + rest) ==
            Success(Route(Identified(c, pairs).value.path, rest))
  {
    var again := [("id", Get(pairs, "id").GetOr(""))] + rest;
    assert again[1..] == rest;
    RemoveLacking(rest, "id");
  }

  lemma ResubmittedLocates(c: Capability, pairs: Dict, values: Dict)
    requires Fitting(c) && Located(c, pairs).Success?
    requires Within(values, c.filters, "id") && (ConnectionSlot in c.path ==> Lacks(values, "connection_id"))
    ensures Located(c, Resubmitted(c, pairs, values)) == Success(Route(Located(c, pairs).value.path, values))
  {
    var named := Identified(c, pairs).value;
    FillKeepsConnection(c);
    GetRemove(pairs, "id", "connection_id");
    var rest := WithConnection(c.path, Get(pairs, "connection_id"), values);
    assert Lacks(rest, "id");
    ConnectedAgain(named.path, named.values, values);
    if c.identifier == NoId {
      assert Resubmitted(c, pairs, values) == rest;
    } else {
      assert Resubmitted(c, pairs, values) == [("id", Get(pairs, "id").GetOr(""))] + rest;
      IdentifiedAgain(c, pairs, rest);
    }
  }

  lemma ResubmittedIsAllowed(c: Capability, pairs: Dict, values: Dict)
    requires Fitting(c) && Within(values, c.filters, "id")
    requires ConnectionSlot in c.path ==> Lacks(values, "connection_id")
    ensures UniqueKeys(Resubmitted(c, pairs, values)) && NamesIn(Resubmitted(c, pairs, values), Allowed(c))
  {
    var rest := WithConnection(c.path, Get(pairs, "connection_id"), values);
    assert UniqueKeys(rest) && NamesIn(rest, c.filters) && Lacks(rest, "id");
    if c.identifier == NoId {
      assert Resubmitted(c, pairs, values) == rest;
    } else {
      assert Resubmitted(c, pairs, values) == [("id", Get(pairs, "id").GetOr(""))] + rest;
    }
  }

  lemma ResubmittedVia(operation: Operation, c: Capability, pairs: Dict)
    requires Fitting(c) && RouteVia(operation, c, pairs).Success?
    requires PagedJira(operation) || CodeToCloud(operation) ==> "limit" in c.filters
    ensures var route := RouteVia(operation, c, pairs).value;
            RouteVia(operation, c, Resubmitted(c, pairs, route.values)) == Success(route)
  {
    var located := Located(c, pairs).value;
    var values := Filtered(operation, located.values).value;
    LocatedWithin(c, pairs);
    FilteredWithin(operation, located.values, c.filters, "id");
    if ConnectionSlot in c.path { FilteredWithin(operation, located.values, c.filters, "connection_id"); }
    FilteredIsCanonical(operation, located.values);
    CanonicalIsFixed(operation, values);
    ResubmittedLocates(c, pairs, values);
    ResubmittedIsAllowed(c, pairs, values);
  }

  /** Canonicalisation: decoding the query string of an accepted route gives its values back, and
      submitting them again with the same identifiers gives the identical route. */
  lemma ResubmissionIsIdentical(operation: Operation, pairs: Dict)
    ensures RouteOf(operation, pairs).Success? ==>
              var route := RouteOf(operation, pairs).value;
              var decoded := Parse(Serialize(Python, route.values));
              RouteOf(operation, Resubmitted(CapabilityOf(operation).value, pairs, decoded)) == Success(route)
  {
    if RouteOf(operation, pairs).Success? {
      PairsRoundTrip(Python, RouteOf(operation, pairs).value.values);
      if PagedJira(operation) || CodeToCloud(operation) { DefaultedReadsTakeALimit(operation); }
      ResubmittedVia(operation, CapabilityOf(operation).value, pairs);
    }
  }
}
