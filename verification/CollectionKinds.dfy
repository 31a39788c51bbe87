/** The kinds of collection a connection is expected to show, as the web client and the validation
    workflow each work them out. */
module CollectionKinds {
  import opened CollectionRows
  import opened Cascade
  import opened Polling

  /** The kinds of a provider, given which scopes are declared. */
  function KindsFor(provider: Provider, others: bool, runtime: bool): seq<Kind> {
    if provider == Github || provider == AzureRepos then [Kind.Source]
    else if provider == Entra || provider == GoogleWorkspace then [Evidence]
    else if provider != Aws && provider != Azure then [Deployment]
    else (if others then [Deployment] else []) + (if runtime then [Runtime] else [])
  }

  /** The client's reading of provider and declared scopes. */
  function SelectedKinds(provider: Provider, scopes: seq<string>): seq<Kind> {
    KindsFor(provider, exists k :: 0 <= k < |scopes| && scopes[k] != RuntimeScope(provider),
             RuntimeScope(provider) in scopes)
  }

  /** Which of the client's kinds a stored collection kind is shown as. */
  function Shown(kind: CollectionKind): Kind {
    match kind
    case AwsDeployments => Deployment
    case AzureDeployments => Deployment
    case GcpDeployments => Deployment
    case AwsAgentRuntime => Runtime
    case AzureAgentRuntime => Runtime
    case EntraAi => Evidence
    case GoogleWorkspaceAi => Evidence
    case GithubSource => Kind.Source
    case AzureReposSource => Kind.Source
  }

  lemma ScopesAgree(scopes: seq<string>, runtime: string)
    ensures (exists k :: 0 <= k < |scopes| && scopes[k] != runtime) <==> (set s | s in scopes) - {runtime} != {}
    ensures scopes != [] <==> (exists k :: 0 <= k < |scopes| && scopes[k] != runtime) || runtime in scopes
  {
    var declared := set s | s in scopes;
    if k :| 0 <= k < |scopes| && scopes[k] != runtime {
      assert scopes[k] in declared - {runtime};
    }
    assert scopes != [] ==> scopes[0] in declared;
  }

  function ShownKinds(queued: Requests): seq<Kind> {
    if queued == [] then [] else [Shown(queued[0].1)] + ShownKinds(queued[1..])
  }

  lemma ShownOne(r: (string, CollectionKind))
    ensures ShownKinds([r]) == [Shown(r.1)]
  {
    assert [r][1..] == [];
  }

  lemma ShownTwo(r: (string, CollectionKind), s: (string, CollectionKind))
    ensures ShownKinds([r] + [s]) == [Shown(r.1), Shown(s.1)]
  {
    assert ([r] + [s])[1..] == [s];
    ShownOne(s);
  }

  lemma ScopedAgree(connection: string, provider: Provider, others: bool, runtime: bool)
    requires provider == Aws || provider == Azure
    ensures ShownKinds(Primary(connection, provider, others, runtime)) == KindsFor(provider, others, runtime)
  {
    var first := (connection, if provider == Aws then AwsDeployments else AzureDeployments);
    var second := (connection, if provider == Aws then AwsAgentRuntime else AzureAgentRuntime);
    assert Primary(connection, provider, others, runtime) ==
           (if others then [first] else []) + (if runtime then [second] else []);
    ShownOne(first);
    ShownOne(second);
    ShownTwo(first, second);
    assert [] + [second] == [second] && [first] + [] == [first];
  }

  lemma PlainAgree(connection: string, provider: Provider, others: bool, runtime: bool)
    requires provider != Aws && provider != Azure
    ensures var queued := Primary(connection, provider, others, runtime);
            ShownKinds(queued) == KindsFor(provider, others, runtime) && queued != []
  {
    ShownOne(Primary(connection, provider, others, runtime)[0]);
  }

  /** Client and workflow agree: the kinds waited for are, in order, the kinds queued. So a wait is
      for nothing, and cannot succeed, exactly when nothing is queued: an AWS or Azure connection
      that declares no scope. */
  lemma WaitedForIsQueued(connection: string, provider: Provider, scopes: seq<string>)
    ensures var queued := RequestsFor(connection, provider, set s | s in scopes);
            && SelectedKinds(provider, scopes) == ShownKinds(queued)
            && (queued == [] <==> (provider == Aws || provider == Azure) && scopes == [])
  {
    var runtime := RuntimeScope(provider);
    ScopesAgree(scopes, runtime);
    var others := (set s | s in scopes) - {runtime} != {};
    if provider == Aws || provider == Azure {
      ScopedAgree(connection, provider, others, runtime in scopes);
    } else {
      PlainAgree(connection, provider, others, runtime in scopes);
    }
  }
}
