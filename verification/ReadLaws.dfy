/** What the gateway accepts and what it passes on, said outright of the query as it was given: a read
    resolves exactly when each of its parameters is fit, and each is passed on in one known form. */
module ReadLaws {
  import opened Options
  import opened FormCodec
  import opened Sequences
  import opened ReadText
  import opened ReadRoute

  // ------------------------------------------------------------- fit parameters

  /** A number is absent or written as one between the bounds, plainly where that is asked for. */
  predicate FitNumber(raw: Option<string>, plain: bool, least: int, most: int) {
    raw.Some? ==>
      && ParseInt(raw.value).Some? && least <= ParseInt(raw.value).value <= most
      && (plain ==> CanonicalDecimal(raw.value))
  }

  predicate FitUuid(raw: Option<string>) { raw.Some? && CanonicalUuid(Lower(raw.value)) }

  predicate FitText(raw: Option<string>, most: nat) { raw.Some? ==> |raw.value| <= most }

  predicate FitFlag(raw: Option<string>) { raw == None || raw == Some("true") || raw == Some("false") }

  predicate TicketRead(operation: Operation) {
    operation.SharedJiraConnections? || operation.SharedJiraStatus? || operation.SharedJiraProjects?
    || operation.SharedJiraIssues? || operation.SharedJiraIssueDetail?
  }

  function MostRows(operation: Operation): int {
    if operation.SharedJiraProjects? || operation.SharedJiraIssues? then 50 else 100
  }

  predicate FitTicket(operation: Operation, d: Dict) {
    && (operation.SharedJiraIssues? || operation.SharedJiraIssueDetail? ==>
          Get(d, "project_id").Some? && ProjectId(Get(d, "project_id").value))
    && (operation.SharedJiraIssueDetail? ==> Get(d, "issue_id").Some? && IssueId(Get(d, "issue_id").value))
    && (TicketRead(operation) && Get(d, "cursor").Some? ==> Cursor(Get(d, "cursor").value))
  }

  predicate FitNumbers(operation: Operation, d: Dict) {
    && FitNumber(Get(d, "limit"), TicketRead(operation), 1, MostRows(operation))
    && FitNumber(Get(d, "offset"), TicketRead(operation), 0, 100_000)
  }

  predicate Fit(operation: Operation, d: Dict) {
    && (Get(d, "asset_id").Some? ==> FitUuid(Get(d, "asset_id")))
    && FitNumbers(operation, d)
    && FitTicket(operation, d)
    && FitText(Get(d, "q"), 200) && FitText(Get(d, "kind"), 100) && FitFlag(Get(d, "include_fixtures"))
  }

  // ---------------------------------------------------------------- passed-on forms

  /** The number given, printed. */
  function Plain(raw: Option<string>): Option<string> {
    if raw.Some? && ParseInt(raw.value).Some? && ParseInt(raw.value).value >= 0
    then Some(Decimal(ParseInt(raw.value).value))
    else raw
  }

  function PageSize(operation: Operation): Option<string> {
    if operation.SharedJiraProjects? || operation.SharedJiraIssues? then Some("20")
    else if operation.CodeToCloudDeployments? || operation.CodeToCloudObservations? then Some("100")
    else None
  }

  /** The value passed on under a name, from what was given: numbers printed, the asset id in lower
      case, a page size where the read has a default, everything else untouched. */
  function PassedOn(operation: Operation, d: Dict, name: string): Option<string> {
    if name == "limit" then
      if Get(d, name).Some? then Plain(Get(d, name)) else PageSize(operation)
    else if name == "offset" then Plain(Get(d, name))
    else if name == "asset_id" && Get(d, name).Some? then Some(Lower(Get(d, name).value))
    else Get(d, name)
  }

  ghost predicate PassesOn(operation: Operation, d: Dict, values: Dict) {
    forall name :: Get(values, name) == PassedOn(operation, d, name)
  }

  // -------------------------------------------------------------------- the filters

  lemma NumberExactly(d: Dict, plain: bool, name: string, least: nat, most: nat)
    ensures var r := WithNumber(d, plain, name, least, most);
            && (r.Success? <==> FitNumber(Get(d, name), plain, least, most))
            && (r.Success? ==>
                  forall key :: Get(r.value, key) == if key == name then Plain(Get(d, name)) else Get(d, key))
  {
    var r, raw := WithNumber(d, plain, name, least, most), Get(d, name);
    if r.Success? && raw.Some? {
      forall key ensures Get(r.value, key) == if key == name then Plain(raw) else Get(d, key) {
        GetPut(d, name, Decimal(ParseInt(raw.value).value), key);
      }
    }
  }

  lemma AssetExactly(d: Dict)
    ensures var r, raw := WithAsset(d), Get(d, "asset_id");
            && (r.Success? <==> (raw.Some? ==> FitUuid(raw)))
            && (r.Success? ==>
                  forall key :: Get(r.value, key) ==
                                if key == "asset_id" && raw.Some? then Some(Lower(raw.value)) else Get(d, key))
  {
    var raw := Get(d, "asset_id");
    if raw.Some? {
      forall key ensures Get(Put(d, "asset_id", Lower(raw.value)), key) ==
                         if key == "asset_id" then Some(Lower(raw.value)) else Get(d, key) {
        GetPut(d, "asset_id", Lower(raw.value), key);
      }
    }
  }

  lemma DefaultExactly(operation: Operation, d: Dict)
    ensures forall key :: Get(Defaulted(operation, d), key) ==
                          if key == "limit" && Get(d, key) == None then PageSize(operation) else Get(d, key)
  {
    DefaultIsPut(d, "20");
    DefaultIsPut(d, "100");
  }

  /** The number filters succeed exactly on two fit numbers and print both. */
  lemma NumbersExactly(d: Dict, plain: bool, most: nat)
    ensures var r := Numbered(plain, most, d);
            && (r.Success? <==>
                  FitNumber(Get(d, "limit"), plain, 1, most) && FitNumber(Get(d, "offset"), plain, 0, 100_000))
            && (r.Success? ==>
                  forall key :: Get(r.value, key) ==
                                if key == "limit" || key == "offset" then Plain(Get(d, key)) else Get(d, key))
  {
    NumberExactly(d, plain, "limit", 1, most);
    var limited := WithNumber(d, plain, "limit", 1, most);
    if limited.Success? { NumberExactly(limited.value, plain, "offset", 0, 100_000); }
  }

  /** The two agree on every parameter the filters leave alone. */
  predicate Agree(a: Dict, b: Dict) {
    && Get(a, "project_id") == Get(b, "project_id") && Get(a, "issue_id") == Get(b, "issue_id")
    && Get(a, "cursor") == Get(b, "cursor") && Get(a, "q") == Get(b, "q") && Get(a, "kind") == Get(b, "kind")
    && Get(a, "include_fixtures") == Get(b, "include_fixtures")
  }

  lemma Agreeing(a: Dict, b: Dict)
    requires forall key :: key !in {"limit", "offset", "asset_id"} ==> Get(a, key) == Get(b, key)
    ensures Agree(a, b)
  {
  }

  lemma SameTicket(operation: Operation, a: Dict, b: Dict)
    requires Agree(a, b)
    ensures JiraFits(operation, a) <==> FitTicket(operation, b)
  {
    if !TicketRead(operation) {
      assert !Jira(operation);
    } else if operation.SharedJiraIssues? {
      assert Jira(operation);
    } else if operation.SharedJiraIssueDetail? {
      assert Jira(operation);
    } else {
      assert Jira(operation);
    }
  }

  lemma SameTexts(a: Dict, b: Dict)
    requires Agree(a, b)
    ensures TextFits(a) <==>
              FitText(Get(b, "q"), 200) && FitText(Get(b, "kind"), 100) && FitFlag(Get(b, "include_fixtures"))
  {
  }

  /** What the first two filters leave. */
  ghost predicate Stages(d: Dict, assets: Dict, paged: Dict) {
    && (forall key :: Get(assets, key) ==
          if key == "asset_id" && Get(d, key).Some? then Some(Lower(Get(d, key).value)) else Get(d, key))
    && (forall key :: Get(paged, key) ==
          if key == "limit" || key == "offset" then Plain(Get(assets, key)) else Get(assets, key))
  }

  lemma StagesAgree(d: Dict, assets: Dict, paged: Dict)
    requires Stages(d, assets, paged)
    ensures Agree(paged, d) && Get(assets, "limit") == Get(d, "limit") && Get(assets, "offset") == Get(d, "offset")
  {
    assert forall key :: key !in {"limit", "offset", "asset_id"} ==> Get(paged, key) == Get(d, key);
    Agreeing(paged, d);
  }

  lemma StagesPassOn(operation: Operation, d: Dict, assets: Dict, paged: Dict)
    requires Stages(d, assets, paged)
    ensures PassesOn(operation, d, Defaulted(operation, paged))
  {
    DefaultExactly(operation, paged);
    forall name ensures Get(Defaulted(operation, paged), name) == PassedOn(operation, d, name) {
      assert Get(assets, name) ==
             if name == "asset_id" && Get(d, name).Some? then Some(Lower(Get(d, name).value)) else Get(d, name);
      assert Get(paged, name) ==
             if name == "limit" || name == "offset" then Plain(Get(assets, name)) else Get(assets, name);
    }
  }

  lemma FitAfterStages(operation: Operation, d: Dict, assets: Dict, paged: Dict)
    requires Stages(d, assets, paged)
    ensures Fit(operation, d) <==>
              && (Get(d, "asset_id").Some? ==> FitUuid(Get(d, "asset_id")))
              && FitNumber(Get(assets, "limit"), Jira(operation), 1, LimitBound(operation))
              && FitNumber(Get(assets, "offset"), Jira(operation), 0, 100_000)
              && JiraFits(operation, paged) && TextFits(paged)
  {
    StagesAgree(d, assets, paged);
    SameTicket(operation, paged, d);
    SameTexts(paged, d);
  }

  lemma UnfitAssetFails(operation: Operation, d: Dict)
    requires WithAsset(d).Failure?
    ensures Filtered(operation, d).Failure? && !Fit(operation, d)
  {
    AssetExactly(d);
  }

  lemma UnfitNumbers(operation: Operation, d: Dict, assets: Dict)
    requires Get(assets, "limit") == Get(d, "limit") && Get(assets, "offset") == Get(d, "offset")
    requires Numbered(Jira(operation), LimitBound(operation), assets).Failure?
    ensures !FitNumbers(operation, d)
  {
    NumbersExactly(assets, Jira(operation), LimitBound(operation));
  }

  lemma UnfitNumberFails(operation: Operation, d: Dict, assets: Dict)
    requires WithAsset(d) == Success(assets)
    requires Numbered(Jira(operation), LimitBound(operation), assets).Failure?
    ensures Filtered(operation, d).Failure? && !Fit(operation, d)
  {
    AssetExactly(d);
    UnfitNumbers(operation, d, assets);
  }

  lemma StagesReached(operation: Operation, d: Dict, assets: Dict, paged: Dict)
    requires WithAsset(d) == Success(assets)
    requires Numbered(Jira(operation), LimitBound(operation), assets) == Success(paged)
    ensures Stages(d, assets, paged)
    ensures Fit(operation, d) <==> JiraFits(operation, paged) && TextFits(paged)
  {
    AssetExactly(d);
    NumbersExactly(assets, Jira(operation), LimitBound(operation));
    assert Stages(d, assets, paged);
    FitAfterStages(operation, d, assets, paged);
  }

  /** The filters succeed exactly on fit parameters, and pass each one on in its known form. */
  lemma FilteredExactly(operation: Operation, d: Dict)
    ensures Filtered(operation, d).Success? <==> Fit(operation, d)
    ensures Filtered(operation, d).Success? ==> PassesOn(operation, d, Filtered(operation, d).value)
  {
    if WithAsset(d).Failure? {
      UnfitAssetFails(operation, d);
    } else if Numbered(Jira(operation), LimitBound(operation), WithAsset(d).value).Failure? {
      UnfitNumberFails(operation, d, WithAsset(d).value);
    } else {
      var assets := WithAsset(d).value;
      var paged := Numbered(Jira(operation), LimitBound(operation), assets).value;
      StagesReached(operation, d, assets, paged);
      StagesPassOn(operation, d, assets, paged);
    }
  }

  // ---------------------------------------------------------------------- the route

  predicate FitIdentifiers(c: Capability, pairs: Dict) {
    && (match c.identifier
        case NoId => true
        case UuidId => FitUuid(Get(pairs, "id"))
        case SessionId => Get(pairs, "id").Some? && SessionKey(Get(pairs, "id").value))
    && (ConnectionSlot in c.path ==>
          Get(pairs, "connection_id").Some? && CanonicalUuid(Get(pairs, "connection_id").value))
  }

  /** The identifiers of a read that go into its path. */
  predicate InPath(c: Capability, name: string) {
    (c.identifier != NoId && name == "id") || (ConnectionSlot in c.path && name == "connection_id")
  }

  predicate Alike(a: Dict, b: Dict) {
    && Agree(a, b) && Get(a, "limit") == Get(b, "limit") && Get(a, "offset") == Get(b, "offset")
    && Get(a, "asset_id") == Get(b, "asset_id")
  }

  ghost predicate OutsidePath(c: Capability, d: Dict, r: Dict) {
    forall name :: Get(r, name) == if InPath(c, name) then None else Get(d, name)
  }

  lemma PathLeavesParameters(c: Capability, d: Dict, r: Dict)
    requires OutsidePath(c, d, r)
    ensures Alike(r, d)
  {
    assert forall name :: |name| != 2 && |name| != 13 ==> Get(r, name) == Get(d, name);
    assert Get(r, "include_fixtures") == Get(d, "include_fixtures");
  }

  lemma AlikeFit(operation: Operation, a: Dict, b: Dict)
    requires Alike(a, b)
    ensures Fit(operation, a) <==> Fit(operation, b)
  {
  }

  lemma AlikePassedOn(operation: Operation, c: Capability, d: Dict, r: Dict, name: string)
    requires OutsidePath(c, d, r) && Alike(r, d)
    ensures PassedOn(operation, r, name) == if InPath(c, name) then None else PassedOn(operation, d, name)
  {
    assert InPath(c, name) ==> |name| == 2 || |name| == 13;
  }

  lemma LocatedExactly(c: Capability, pairs: Dict)
    requires Fitting(c)
    ensures Located(c, pairs).Success? <==> FitIdentifiers(c, pairs)
    ensures Located(c, pairs).Success? ==>
              OutsidePath(c, pairs, Located(c, pairs).value.values)
  {
    FillKeepsConnection(c);
    GetRemove(pairs, "id", "connection_id");
    if Located(c, pairs).Success? {
      var named := Identified(c, pairs).value;
      forall name ensures Get(Located(c, pairs).value.values, name) ==
                          if InPath(c, name) then None else Get(pairs, name) {
        GetRemove(pairs, "id", name);
        GetRemove(named.values, "connection_id", name);
      }
    }
  }

  /** Every name is one the read takes, once. */
  predicate Known(c: Capability, pairs: Dict) {
    && UniqueKeys(pairs)
    && forall k :: 0 <= k < |pairs| ==> pairs[k].0 in c.filters || (c.identifier != NoId && pairs[k].0 == "id")
  }

  /** The values of a route: every parameter in its one form, and nothing of the identifiers. */
  ghost predicate Carries(operation: Operation, c: Capability, pairs: Dict, values: Dict) {
    forall name :: Get(values, name) == if InPath(c, name) then None else PassedOn(operation, pairs, name)
  }

  lemma LocatedCarries(operation: Operation, c: Capability, pairs: Dict, rest: Dict, values: Dict)
    requires OutsidePath(c, pairs, rest) && PassesOn(operation, rest, values)
    ensures Carries(operation, c, pairs, values)
  {
    PathLeavesParameters(c, pairs, rest);
    forall name ensures Get(values, name) == if InPath(c, name) then None else PassedOn(operation, pairs, name) {
      AlikePassedOn(operation, c, pairs, rest, name);
    }
  }

  /** The answer is a route exactly for a query fit in all its parts, and then carries them. */
  ghost predicate ResolvesExactly(operation: Operation, c: Capability, pairs: Dict, route: Result<Route, RouteError>) {
    && (route.Success? <==> Known(c, pairs) && FitIdentifiers(c, pairs) && Fit(operation, pairs))
    && (route.Success? ==> Carries(operation, c, pairs, route.value.values))
  }

  lemma ViaExactly(operation: Operation, c: Capability, pairs: Dict)
    requires Fitting(c)
    ensures ResolvesExactly(operation, c, pairs, RouteVia(operation, c, pairs))
            && RouteVia(operation, c, pairs) != Failure(NotFound)
  {
    assert Known(c, pairs) <==> UniqueKeys(pairs) && NamesIn(pairs, Allowed(c));
    LocatedExactly(c, pairs);
    NeverNotFound(operation, c, pairs);
    if Located(c, pairs).Success? {
      var rest := Located(c, pairs).value.values;
      PathLeavesParameters(c, pairs, rest);
      AlikeFit(operation, rest, pairs);
      FilteredExactly(operation, rest);
      if Filtered(operation, rest).Success? {
        LocatedCarries(operation, c, pairs, rest, Filtered(operation, rest).value);
      }
    }
  }

  lemma NeverNotFound(operation: Operation, c: Capability, pairs: Dict)
    ensures RouteVia(operation, c, pairs) != Failure(NotFound)
  {
  }

  /** A query resolves exactly when its operation is listed, its names are known and unrepeated, and its
      identifiers and parameters are fit; an unknown operation alone is not found. The route passes
      every parameter on in its one form, and nothing of the identifiers. */
  lemma RouteExactly(operation: Operation, pairs: Dict)
    ensures var c, route := CapabilityOf(operation), RouteOf(operation, pairs);
            && (c.Some? ==> ResolvesExactly(operation, c.value, pairs, route))
            && (c == None <==> operation.Unlisted?) && (route == Failure(NotFound) <==> operation.Unlisted?)
  {
    if CapabilityOf(operation).Some? { ViaExactly(operation, CapabilityOf(operation).value, pairs); }
  }
}
