/** What one queueing call does to the job table and what a success hook or a healthy validation asks
    for, said outright. */
module CascadeLaws {
  import opened Options
  import opened CollectionRows
  import opened Cascade

  /** A row of the pair that is in the way of another. */
  predicate InTheWay(w: World, jobs: Jobs, j: nat, connection: string, kind: CollectionKind)
    requires j < |jobs|
  {
    && jobs[j].active && jobs[j].connection == connection && jobs[j].kind == kind
    && (kind == GithubSource || !w.stale(j))
  }

  predicate Blocked(w: World, jobs: Jobs, connection: string, kind: CollectionKind) {
    exists j :: 0 <= j < |jobs| && InTheWay(w, jobs, j, connection, kind)
  }

  /** A row as a queueing call leaves it: ended if it is a stale one of the pair that is not resumable. */
  predicate Left(w: World, jobs: Jobs, jobs': Jobs, j: nat, connection: string, kind: CollectionKind)
    requires j < |jobs| <= |jobs'|
  {
    if jobs[j].connection == connection && jobs[j].kind == kind && kind != GithubSource && w.stale(j)
    then jobs'[j] == jobs[j].(active := false)
    else jobs'[j] == jobs[j]
  }

  lemma BlockedExactly(w: World, jobs: Jobs, connection: string, kind: CollectionKind)
    ensures Holds(Expired(w, jobs, connection, kind), connection, kind) <==> Blocked(w, jobs, connection, kind)
  {
    var kept := Expired(w, jobs, connection, kind);
    if Holds(kept, connection, kind) {
      var j :| 0 <= j < |kept| && kept[j].active && kept[j].connection == connection && kept[j].kind == kind;
      assert InTheWay(w, jobs, j, connection, kind);
    }
    if Blocked(w, jobs, connection, kind) {
      var j :| 0 <= j < |jobs| && InTheWay(w, jobs, j, connection, kind);
      assert kept[j] == jobs[j];
    }
  }

  /** Queueing for a connection that is not active raises and changes nothing. For any other, stale rows
      of the pair are ended, and one row is added unless an active one is in the way. An added row whose
      worker cannot be spawned is ended and the call raises, except for a resumable one, which stays for
      the recovery to find. */
  lemma QueueingExactly(w: World, jobs: Jobs, connection: string, kind: CollectionKind, cause: Option<nat>)
    ensures var (jobs', raised) := Enqueued(w, jobs, connection, kind, cause);
            var added := w.isOpen(connection) && !Blocked(w, jobs, connection, kind);
            && (!w.isOpen(connection) ==> raised && jobs' == jobs)
            && |jobs'| == |jobs| + (if added then 1 else 0)
            && (w.isOpen(connection) ==> forall j :: 0 <= j < |jobs| ==> Left(w, jobs, jobs', j, connection, kind))
            && (added ==>
                  jobs'[|jobs|] == AutoJob(connection, kind, w.spawns(|jobs|) || kind == GithubSource, cause))
            && (raised <==> !w.isOpen(connection) || (added && !w.spawns(|jobs|) && kind != GithubSource))
  {
    BlockedExactly(w, jobs, connection, kind);
  }

  /** A success hook raises exactly when its queueing does or one of the two evaluations does, and changes
      nothing unless a deployment was collected. */
  lemma HookExactly(w: World, jobs: Jobs, job: nat, github: seq<string>, azureRepos: seq<string>)
    requires job < |jobs|
    ensures var (jobs', raised) := Hooked(w, jobs, job, github, azureRepos);
            var queued := AllQueued(w, jobs, Dependents(jobs[job].kind, github, azureRepos), Some(job));
            && jobs' == queued.0
            && (raised <==> queued.1 || !w.detectionsReturn || !w.issuesReturn)
            && (!(jobs[job].kind in {AwsDeployments, AzureDeployments, GcpDeployments}) ==>
                  jobs' == jobs && !queued.1)
  {
  }

  /** The hook of a deployment asks for the correlation of every healthy source connection and for nothing
      else, GitHub before Azure Repos. */
  lemma DependentsExactly(kind: CollectionKind, github: seq<string>, azureRepos: seq<string>)
    requires kind == AwsDeployments || kind == AzureDeployments || kind == GcpDeployments
    ensures var asked := Dependents(kind, github, azureRepos);
            && |asked| == |github| + |azureRepos|
            && (forall k :: 0 <= k < |github| ==> asked[k] == (github[k], GithubSource))
            && (forall k :: 0 <= k < |azureRepos| ==> asked[|github| + k] == (azureRepos[k], AzureReposSource))
  {
  }

  /** The kind a provider's scopes ask for: runtime activity for that scope, deployments for any other, and
      the one kind of a provider that has one. */
  predicate AskedFor(name: string, scopes: set<string>, kind: CollectionKind) {
    || (kind == AwsDeployments && name == "aws" && exists s :: s in scopes && s != "aws.agent_runtime_activity")
    || (kind == AwsAgentRuntime && name == "aws" && "aws.agent_runtime_activity" in scopes)
    || (kind == AzureDeployments && name == "azure" && exists s :: s in scopes && s != "azure.agent_runtime_activity")
    || (kind == AzureAgentRuntime && name == "azure" && "azure.agent_runtime_activity" in scopes)
    || (kind == EntraAi && name == "entra") || (kind == GcpDeployments && name == "gcp")
    || (kind == GithubSource && name == "github") || (kind == AzureReposSource && name == "azure_repos")
    || (kind == GoogleWorkspaceAi && name == "google_workspace")
  }

  /** A healthy validation raises exactly for a name of no provider or a scoped connection that is gone,
      and asks for exactly the kinds its scopes ask for, each once and for itself. */
  lemma PrimaryExactly(connection: string, name: string, declared: Option<set<string>>)
    ensures var asked := PrimaryRequests(connection, name, declared);
            && (asked == None <==>
                  name !in {"aws", "azure", "entra", "gcp", "github", "azure_repos", "google_workspace"}
                  || (name in {"aws", "azure"} && declared == None))
            && (asked.Some? ==>
                  && (forall c, kind :: (c, kind) in asked.value <==>
                        c == connection && AskedFor(name, declared.GetOr({}), kind))
                  && forall i, j :: 0 <= i < j < |asked.value| ==> asked.value[i] != asked.value[j])
  {
    if name == "aws" && declared.Some? {
      ScopedExactly(connection, "aws", Aws, declared.value);
    } else if name == "azure" && declared.Some? {
      ScopedExactly(connection, "azure", Azure, declared.value);
    }
  }

  lemma ScopedExactly(connection: string, name: string, provider: Provider, scopes: set<string>)
    requires (name == "aws" && provider == Aws) || (name == "azure" && provider == Azure)
    ensures var asked := RequestsFor(connection, provider, scopes);
            && (forall c, kind :: (c, kind) in asked <==> c == connection && AskedFor(name, scopes, kind))
            && forall i, j :: 0 <= i < j < |asked| ==> asked[i] != asked[j]
  {
    var rest := scopes - {RuntimeScope(provider)};
    assert rest != {} <==> exists s :: s in scopes && s != RuntimeScope(provider) by {
      if s :| s in scopes && s != RuntimeScope(provider) { assert s in rest; }
    }
    var deployment := if provider == Aws then AwsDeployments else AzureDeployments;
    var runtime := if provider == Aws then AwsAgentRuntime else AzureAgentRuntime;
    var first: Requests := if rest != {} then [(connection, deployment)] else [];
    var second: Requests := if RuntimeScope(provider) in scopes then [(connection, runtime)] else [];
    assert RequestsFor(connection, provider, scopes) == first + second;
    forall c, kind ensures (c, kind) in first + second <==> (c, kind) in first || (c, kind) in second { }
  }
}
