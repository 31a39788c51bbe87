/** Collections that queue collections: a healthy validation queues the primary ones, and a finished
    deployment collection queues the correlation of every healthy source connection. */
module Cascade {
  import opened Options
  import opened CollectionRows

  /** A row of the job table; `cause` is the job whose success queued it, if that is how it came. */
  datatype AutoJob = AutoJob(connection: string, kind: CollectionKind, active: bool, cause: Option<nat>)

  /** What the calls find: whether the worker of a job can be spawned, which active rows are stale,
      which connections are active, and whether the two evaluations that end a success hook return. */
  datatype World = World(spawns: nat -> bool, stale: nat -> bool, isOpen: string -> bool,
                         detectionsReturn: bool, issuesReturn: bool)

  type Jobs = seq<AutoJob>

  predicate Holds(jobs: Jobs, connection: string, kind: CollectionKind) {
    exists j :: 0 <= j < |jobs| && jobs[j].active && jobs[j].connection == connection && jobs[j].kind == kind
  }

  /** The unique index of the table: one active row per connection and kind. */
  predicate UniqueActive(jobs: Jobs) {
    forall i, j :: 0 <= i < j < |jobs| && jobs[i].active && jobs[j].active ==>
      !(jobs[i].connection == jobs[j].connection && jobs[i].kind == jobs[j].kind)
  }

  /** Rows of the pair that are stale are failed first, unless they are resumable. */
  function Expired(w: World, jobs: Jobs, connection: string, kind: CollectionKind): (r: Jobs)
    ensures |r| == |jobs|
  {
    seq(|jobs|, j requires 0 <= j < |jobs| =>
      if jobs[j].connection == connection && jobs[j].kind == kind && kind != GithubSource && w.stale(j)
      then jobs[j].(active := false) else jobs[j])
  }

  /** The insert, with its conflict clause: nothing happens when an active row is in the way. */
  function Inserted(w: World, jobs: Jobs, connection: string, kind: CollectionKind, cause: Option<nat>): Jobs {
    var kept := Expired(w, jobs, connection, kind);
    if Holds(kept, connection, kind) then kept else kept + [AutoJob(connection, kind, true, cause)]
  }

  /** One queueing call: the table after it, and whether it raised. */
  function Enqueued(w: World, jobs: Jobs, connection: string, kind: CollectionKind, cause: Option<nat>): (Jobs, bool) {
    if !w.isOpen(connection) then (jobs, true)
    else
      var inserted := Inserted(w, jobs, connection, kind, cause);
      if |inserted| == |jobs| || w.spawns(|jobs|) || kind == GithubSource then (inserted, false)
      else (inserted[|jobs| := inserted[|jobs|].(active := false)], true)
  }

  type Requests = seq<(string, CollectionKind)>

  /** Queueing calls one after another; the first that raises ends the list. */
  function AllQueued(w: World, jobs: Jobs, requests: Requests, cause: Option<nat>): (Jobs, bool)
    decreases |requests|
  {
    if requests == [] then (jobs, false)
    else
      var (next, raised) := Enqueued(w, jobs, requests[0].0, requests[0].1, cause);
      if raised then (next, true) else AllQueued(w, next, requests[1..], cause)
  }

  /** What a healthy validation asks for. AWS and Azure connections may grant deployment scopes,
      the runtime-activity scope, or both. */
  function Primary(connection: string, provider: Provider, deployments: bool, runtime: bool): Requests {
    match provider
    case Aws =>
      (if deployments then [(connection, AwsDeployments)] else [])
      + (if runtime then [(connection, AwsAgentRuntime)] else [])
    case Azure =>
      (if deployments then [(connection, AzureDeployments)] else [])
      + (if runtime then [(connection, AzureAgentRuntime)] else [])
    case Entra => [(connection, EntraAi)]
    case Gcp => [(connection, GcpDeployments)]
    case Github => [(connection, GithubSource)]
    case AzureRepos => [(connection, AzureReposSource)]
    case GoogleWorkspace => [(connection, GoogleWorkspaceAi)]
  }

  function RuntimeScope(provider: Provider): string {
    if provider == Aws then "aws.agent_runtime_activity" else "azure.agent_runtime_activity"
  }

  /** The provider a name stands for. */
  function ProviderNamed(name: string): Option<Provider> {
    if name == "aws" then Some(Aws)
    else if name == "azure" then Some(Azure)
    else if name == "entra" then Some(Entra)
    else if name == "gcp" then Some(Gcp)
    else if name == "github" then Some(Github)
    else if name == "azure_repos" then Some(AzureRepos)
    else if name == "google_workspace" then Some(GoogleWorkspace)
    else None
  }

  /** What the workflow asks for after a healthy validation of a connection that declares these
      scopes. */
  function RequestsFor(connection: string, provider: Provider, scopes: set<string>): Requests {
    Primary(connection, provider, scopes - {RuntimeScope(provider)} != {}, RuntimeScope(provider) in scopes)
  }

  /** None is an exception: an unknown provider, or an AWS or Azure connection that is gone. */
  function PrimaryRequests(connection: string, name: string, declared: Option<set<string>>): Option<Requests> {
    var provider := ProviderNamed(name);
    if provider == None || ((name == "aws" || name == "azure") && declared == None) then None
    else Some(RequestsFor(connection, provider.value, declared.GetOr({})))
  }

  function Each(connections: seq<string>, kind: CollectionKind): Requests {
    seq(|connections|, k requires 0 <= k < |connections| => (connections[k], kind))
  }

  predicate Deploys(kind: CollectionKind) {
    kind == AwsDeployments || kind == AzureDeployments || kind == GcpDeployments
  }

  /** What the success of a collection asks for, given the healthy source connections. */
  function Dependents(kind: CollectionKind, github: seq<string>, azureRepos: seq<string>): Requests {
    if Deploys(kind) then Each(github, GithubSource) + Each(azureRepos, AzureReposSource) else []
  }

  /** The whole success hook: the queueing, and the two evaluations after it. */
  function Hooked(w: World, jobs: Jobs, job: nat, github: seq<string>, azureRepos: seq<string>): (Jobs, bool)
    requires job < |jobs|
  {
    var (next, raised) := AllQueued(w, jobs, Dependents(jobs[job].kind, github, azureRepos), Some(job));
    (next, raised || !w.detectionsReturn || !w.issuesReturn)
  }

  // ------------------------------------------------------------------- the code

  class JobTable {
    var jobs: Jobs

    constructor ()
      ensures jobs == []
    {
      jobs := [];
    }

    /** The store's queueing call. */
    method Create(w: World, connection: string, kind: CollectionKind, cause: Option<nat>) returns (created: bool)
      requires w.isOpen(connection)
      modifies this
      ensures jobs == Inserted(w, old(jobs), connection, kind, cause)
      ensures created <==> |jobs| > |old(jobs)|
    {
      jobs := Expired(w, jobs, connection, kind);
      if Holds(jobs, connection, kind) { return false; }
      jobs := jobs + [AutoJob(connection, kind, true, cause)];
      return true;
    }

    method QueueCollection(w: World, connection: string, kind: CollectionKind, cause: Option<nat>)
      returns (raised: bool)
      modifies this
      ensures (jobs, raised) == Enqueued(w, old(jobs), connection, kind, cause)
    {
      if !w.isOpen(connection) { return true; }
      var id := |jobs|;
      var created := Create(w, connection, kind, cause);
      if !created { return false; }
      if !w.spawns(id) {
        if kind == GithubSource { return false; }
        jobs := jobs[id := jobs[id].(active := false)];
        return true;
      }
      return false;
    }

    method QueueRequests(w: World, requests: Requests, cause: Option<nat>) returns (raised: bool)
      modifies this
      ensures (jobs, raised) == AllQueued(w, old(jobs), requests, cause)
    {
      raised := false;
      for n := 0 to |requests|
        invariant !raised && AllQueued(w, old(jobs), requests, cause) == AllQueued(w, jobs, requests[n..], cause)
      {
        assert requests[n..][1..] == requests[n + 1..];
        raised := QueueCollection(w, requests[n].0, requests[n].1, cause);
        if raised { return; }
      }
    }

    /** `declared` are the scopes of the validated connection, if it is still there. */
    method QueuePrimaryCollection(w: World, connection: string, name: string, declared: Option<set<string>>)
      returns (raised: bool)
      modifies this
      ensures var requests := PrimaryRequests(connection, name, declared);
              if requests == None then raised && jobs == old(jobs)
              else (jobs, raised) == AllQueued(w, old(jobs), requests.value, None)
    {
      if name == "aws" {
        if declared == None { return true; }
        raised := QueueScoped(w, connection, Aws, AwsDeployments, AwsAgentRuntime, declared.value);
        return;
      }
      if name == "azure" {
        if declared == None { return true; }
        raised := QueueScoped(w, connection, Azure, AzureDeployments, AzureAgentRuntime, declared.value);
        return;
      }
      var provider := ProviderNamed(name);
      if provider == None { return true; }
      var kind := PrimaryKind(provider.value);
      SingleRequest(w, jobs, connection, kind);
      raised := QueueCollection(w, connection, kind, None);
    }

    /** Deployment collection when another scope is declared, then runtime collection when that one is. */
    method QueueScoped(w: World, connection: string, provider: Provider, deployment: CollectionKind,
                       runtime: CollectionKind, scopes: set<string>)
      returns (raised: bool)
      requires provider == Aws ==> deployment == AwsDeployments && runtime == AwsAgentRuntime
      requires provider == Azure ==> deployment == AzureDeployments && runtime == AzureAgentRuntime
      requires provider == Aws || provider == Azure
      modifies this
      ensures (jobs, raised) == AllQueued(w, old(jobs), RequestsFor(connection, provider, scopes), None)
    {
      raised := false;
      ghost var before := jobs;
      var first: Requests := if scopes - {RuntimeScope(provider)} != {} then [(connection, deployment)] else [];
      var second: Requests := if RuntimeScope(provider) in scopes then [(connection, runtime)] else [];
      assert RequestsFor(connection, provider, scopes) == first + second;
      AllQueuedConcat(w, before, first, second, None);
      SingleRequest(w, before, connection, deployment);
      if first != [] { raised := QueueCollection(w, connection, deployment, None); }
      if raised { return; }
      SingleRequest(w, jobs, connection, runtime);
      if second != [] { raised := QueueCollection(w, connection, runtime, None); }
    }

    /** The success hook of job `job`. */
    method AfterCollectionSucceeded(w: World, job: nat, github: seq<string>, azureRepos: seq<string>)
      returns (raised: bool)
      requires job < |jobs|
      modifies this
      ensures (jobs, raised) == Hooked(w, old(jobs), job, github, azureRepos)
    {
      raised := false;
      if Deploys(jobs[job].kind) {
        ghost var before := jobs;
        raised := QueueRequests(w, Each(github, GithubSource), Some(job));
        AllQueuedConcat(w, before, Each(github, GithubSource), Each(azureRepos, AzureReposSource), Some(job));
        if !raised { raised := QueueRequests(w, Each(azureRepos, AzureReposSource), Some(job)); }
      }
      if raised { return; }
      if !w.detectionsReturn { return true; }
      if !w.issuesReturn { return true; }
    }
  }

  /** The one primary collection of the providers that have one. */
  function PrimaryKind(provider: Provider): CollectionKind {
    match provider
    case Aws => AwsDeployments
    case Azure => AzureDeployments
    case Entra => EntraAi
    case Gcp => GcpDeployments
    case Github => GithubSource
    case AzureRepos => AzureReposSource
    case GoogleWorkspace => GoogleWorkspaceAi
  }

  lemma SingleRequest(w: World, jobs: Jobs, connection: string, kind: CollectionKind)
    ensures AllQueued(w, jobs, [(connection, kind)], None) == Enqueued(w, jobs, connection, kind, None)
  {
    var requests: Requests := [(connection, kind)];
    assert requests[1..] == [];
  }

  lemma {:induction false} AllQueuedConcat(w: World, jobs: Jobs, a: Requests, b: Requests, cause: Option<nat>)
    ensures AllQueued(w, jobs, a + b, cause) ==
            var (next, raised) := AllQueued(w, jobs, a, cause);
            if raised then (next, true) else AllQueued(w, next, b, cause)
    decreases |a|
  {
    if a == [] {
      assert a + b == b;
    } else {
      assert (a + b)[0] == a[0] && (a + b)[1..] == a[1..] + b;
      AllQueuedConcat(w, Enqueued(w, jobs, a[0].0, a[0].1, cause).0, a[1..], b, cause);
    }
  }

  // ------------------------------------------------------------- what every call keeps

  /** Deployment collections lead to source correlations, and nothing leads to them. */
  function Rank(kind: CollectionKind): nat { if Deploys(kind) then 1 else 0 }

  predicate Source(kind: CollectionKind) { kind == GithubSource || kind == AzureReposSource }

  /** A job queued by another's success correlates sources, and is of lower rank than that other. */
  predicate Caused(jobs: Jobs) {
    forall j :: 0 <= j < |jobs| && jobs[j].cause.Some? ==>
      && jobs[j].cause.value < j && Source(jobs[j].kind)
      && Rank(jobs[j].kind) < Rank(jobs[jobs[j].cause.value].kind)
  }

  /** The later table holds the earlier rows, some of them ended since. */
  predicate Continues(jobs: Jobs, jobs': Jobs) {
    && |jobs| <= |jobs'|
    && forall j :: 0 <= j < |jobs| ==> jobs'[j] == jobs[j] || jobs'[j] == jobs[j].(active := false)
  }

  lemma SameRows(jobs: Jobs, jobs': Jobs)
    requires UniqueActive(jobs) && Caused(jobs) && Continues(jobs, jobs') && |jobs'| == |jobs|
    ensures UniqueActive(jobs') && Caused(jobs')
  {
    forall i, j | 0 <= i < j < |jobs'| && jobs'[i].active && jobs'[j].active
      ensures !(jobs'[i].connection == jobs'[j].connection && jobs'[i].kind == jobs'[j].kind)
    {
      assert jobs'[i] == jobs[i] && jobs'[j] == jobs[j];
    }
  }

  lemma OneMore(jobs: Jobs, kept: Jobs, job: AutoJob)
    requires UniqueActive(kept) && Caused(kept) && Continues(jobs, kept) && |kept| == |jobs|
    requires !Holds(kept, job.connection, job.kind)
    requires job.cause.Some? ==>
               job.cause.value < |jobs| && Source(job.kind) && Rank(job.kind) < Rank(jobs[job.cause.value].kind)
    ensures UniqueActive(kept + [job]) && Caused(kept + [job]) && Continues(jobs, kept + [job])
  {
    var grown := kept + [job];
    assert forall j :: 0 <= j < |kept| ==> grown[j] == kept[j];
    assert job.cause.Some? ==> kept[job.cause.value].kind == jobs[job.cause.value].kind;
  }

  lemma ExpiredContinues(w: World, jobs: Jobs, connection: string, kind: CollectionKind)
    ensures Continues(jobs, Expired(w, jobs, connection, kind))
  {
  }

  lemma ContinuesOn(a: Jobs, b: Jobs, c: Jobs)
    requires Continues(a, b) && Continues(b, c)
    ensures Continues(a, c)
  {
  }

  /** The table is as before, with rows expired, or with one row more. */
  ghost predicate OneOf(jobs: Jobs, kept: Jobs, jobs': Jobs, connection: string, kind: CollectionKind,
                        cause: Option<nat>)
  {
    || jobs' == jobs
    || jobs' == kept
    || (!Holds(kept, connection, kind) && exists active :: jobs' == kept + [AutoJob(connection, kind, active, cause)])
  }

  /** What one queueing call keeps. */
  predicate Keeps(jobs: Jobs, jobs': Jobs) {
    UniqueActive(jobs') && Caused(jobs') && Continues(jobs, jobs') && |jobs'| <= |jobs| + 1
  }

  lemma EnqueuedIs(w: World, jobs: Jobs, connection: string, kind: CollectionKind, cause: Option<nat>)
    ensures OneOf(jobs, Expired(w, jobs, connection, kind), Enqueued(w, jobs, connection, kind, cause).0,
                  connection, kind, cause)
  {
    var kept := Expired(w, jobs, connection, kind);
    if w.isOpen(connection) && !Holds(kept, connection, kind) {
      var active := w.spawns(|jobs|) || kind == GithubSource;
      assert Enqueued(w, jobs, connection, kind, cause).0 == kept + [AutoJob(connection, kind, active, cause)];
    }
  }

  /** The same, whatever was expired. */
  ghost predicate Grows(jobs: Jobs, jobs': Jobs, connection: string, kind: CollectionKind, cause: Option<nat>) {
    exists kept :: Continues(jobs, kept) && |kept| == |jobs| && OneOf(jobs, kept, jobs', connection, kind, cause)
  }

  lemma EnqueuedGrows(w: World, jobs: Jobs, connection: string, kind: CollectionKind, cause: Option<nat>)
    ensures Grows(jobs, Enqueued(w, jobs, connection, kind, cause).0, connection, kind, cause)
  {
    EnqueuedIs(w, jobs, connection, kind, cause);
    ExpiredContinues(w, jobs, connection, kind);
  }

  lemma GrownKeeps(jobs: Jobs, jobs': Jobs, connection: string, kind: CollectionKind, cause: Option<nat>)
    requires UniqueActive(jobs) && Caused(jobs)
    requires cause.Some? ==> cause.value < |jobs| && Source(kind) && Rank(kind) < Rank(jobs[cause.value].kind)
    requires Grows(jobs, jobs', connection, kind, cause)
    ensures Keeps(jobs, jobs')
  {
    var kept :| Continues(jobs, kept) && |kept| == |jobs| && OneOf(jobs, kept, jobs', connection, kind, cause);
    OneOfThree(jobs, kept, jobs', connection, kind, cause);
  }

  lemma EnqueuedKeeps(w: World, jobs: Jobs, connection: string, kind: CollectionKind, cause: Option<nat>)
    requires UniqueActive(jobs) && Caused(jobs)
    requires cause.Some? ==> cause.value < |jobs| && Source(kind) && Rank(kind) < Rank(jobs[cause.value].kind)
    ensures Keeps(jobs, Enqueued(w, jobs, connection, kind, cause).0)
  {
    EnqueuedGrows(w, jobs, connection, kind, cause);
    GrownKeeps(jobs, Enqueued(w, jobs, connection, kind, cause).0, connection, kind, cause);
  }

  lemma OneOfThree(jobs: Jobs, kept: Jobs, jobs': Jobs, connection: string, kind: CollectionKind, cause: Option<nat>)
    requires UniqueActive(jobs) && Caused(jobs) && Continues(jobs, kept) && |kept| == |jobs|
    requires cause.Some? ==> cause.value < |jobs| && Source(kind) && Rank(kind) < Rank(jobs[cause.value].kind)
    requires OneOf(jobs, kept, jobs', connection, kind, cause)
    ensures Keeps(jobs, jobs')
  {
    SameRows(jobs, kept);
    if jobs' != jobs && jobs' != kept {
      var active :| jobs' == kept + [AutoJob(connection, kind, active, cause)];
      OneMore(jobs, kept, AutoJob(connection, kind, active, cause));
    }
  }

  lemma {:induction false} AllQueuedKeeps(w: World, jobs: Jobs, requests: Requests, cause: Option<nat>)
    requires UniqueActive(jobs) && Caused(jobs)
    requires cause.Some? ==> cause.value < |jobs|
    requires forall k :: 0 <= k < |requests| ==>
               (cause.Some? ==> Source(requests[k].1) && Rank(requests[k].1) < Rank(jobs[cause.value].kind))
    ensures var jobs' := AllQueued(w, jobs, requests, cause).0;
            UniqueActive(jobs') && Caused(jobs') && Continues(jobs, jobs') && |jobs'| <= |jobs| + |requests|
    decreases |requests|
  {
    if requests != [] {
      EnqueuedKeeps(w, jobs, requests[0].0, requests[0].1, cause);
      var (next, raised) := Enqueued(w, jobs, requests[0].0, requests[0].1, cause);
      if !raised {
        assert cause.Some? ==> next[cause.value].kind == jobs[cause.value].kind;
        AllQueuedKeeps(w, next, requests[1..], cause);
        ContinuesOn(jobs, next, AllQueued(w, next, requests[1..], cause).0);
      }
    }
  }

  lemma DependentsRankLower(kind: CollectionKind, github: seq<string>, azureRepos: seq<string>)
    ensures var requests := Dependents(kind, github, azureRepos);
            && (forall k :: 0 <= k < |requests| ==> Source(requests[k].1) && Rank(requests[k].1) < Rank(kind))
            && (Rank(kind) == 0 ==> requests == [])
  {
  }

  lemma EnqueuedIsHeld(w: World, jobs: Jobs, connection: string, kind: CollectionKind, cause: Option<nat>)
    requires !Enqueued(w, jobs, connection, kind, cause).1
    ensures Holds(Enqueued(w, jobs, connection, kind, cause).0, connection, kind)
  {
    var kept, jobs' := Expired(w, jobs, connection, kind), Enqueued(w, jobs, connection, kind, cause).0;
    if !Holds(kept, connection, kind) {
      assert jobs' == kept + [AutoJob(connection, kind, true, cause)];
      assert jobs'[|kept|].active;
    }
  }

  lemma OthersStayHeld(w: World, jobs: Jobs, connection: string, kind: CollectionKind, cause: Option<nat>,
                       other: string, otherKind: CollectionKind)
    requires Holds(jobs, other, otherKind) && (other, otherKind) != (connection, kind)
    ensures Holds(Enqueued(w, jobs, connection, kind, cause).0, other, otherKind)
  {
    var j :| 0 <= j < |jobs| && jobs[j].active && jobs[j].connection == other && jobs[j].kind == otherKind;
    EnqueuedIs(w, jobs, connection, kind, cause);
    assert Expired(w, jobs, connection, kind)[j] == jobs[j];
    assert Enqueued(w, jobs, connection, kind, cause).0[j] == jobs[j];
  }

  lemma {:induction false} HeldThroughout(w: World, jobs: Jobs, requests: Requests, cause: Option<nat>,
                                          r: (string, CollectionKind))
    requires !AllQueued(w, jobs, requests, cause).1 && Holds(jobs, r.0, r.1)
    ensures Holds(AllQueued(w, jobs, requests, cause).0, r.0, r.1)
    decreases |requests|
  {
    if requests != [] {
      if requests[0] == r {
        EnqueuedIsHeld(w, jobs, r.0, r.1, cause);
      } else {
        OthersStayHeld(w, jobs, requests[0].0, requests[0].1, cause, r.0, r.1);
      }
      HeldThroughout(w, Enqueued(w, jobs, requests[0].0, requests[0].1, cause).0, requests[1..], cause, r);
    }
  }

  lemma {:induction false} EveryRequestIsHeld(w: World, jobs: Jobs, requests: Requests, cause: Option<nat>, k: nat)
    requires !AllQueued(w, jobs, requests, cause).1 && k < |requests|
    ensures Holds(AllQueued(w, jobs, requests, cause).0, requests[k].0, requests[k].1)
    decreases |requests|
  {
    var next := Enqueued(w, jobs, requests[0].0, requests[0].1, cause).0;
    if k == 0 {
      EnqueuedIsHeld(w, jobs, requests[0].0, requests[0].1, cause);
      HeldThroughout(w, next, requests[1..], cause, requests[0]);
    } else {
      EveryRequestIsHeld(w, next, requests[1..], cause, k - 1);
    }
  }

  /** When the success hook of a deployment collection returns normally, every healthy source
      connection has an active correlation job, whatever was stale, queued or undeliverable. */
  lemma FollowUpIsComplete(w: World, jobs: Jobs, job: nat, github: seq<string>, azureRepos: seq<string>)
    requires job < |jobs| && Deploys(jobs[job].kind)
    ensures var (jobs', raised) := Hooked(w, jobs, job, github, azureRepos);
            !raised ==>
              && (forall c :: c in github ==> Holds(jobs', c, GithubSource))
              && (forall c :: c in azureRepos ==> Holds(jobs', c, AzureReposSource))
  {
    var requests := Dependents(jobs[job].kind, github, azureRepos);
    var (jobs', raised) := AllQueued(w, jobs, requests, Some(job));
    if !raised {
      forall c | c in github ensures Holds(jobs', c, GithubSource) {
        var k :| 0 <= k < |github| && github[k] == c;
        assert requests[k] == (c, GithubSource);
        EveryRequestIsHeld(w, jobs, requests, Some(job), k);
      }
      forall c | c in azureRepos ensures Holds(jobs', c, AzureReposSource) {
        var k :| 0 <= k < |azureRepos| && azureRepos[k] == c;
        assert requests[|github| + k] == (c, AzureReposSource);
        EveryRequestIsHeld(w, jobs, requests, Some(job), |github| + k);
      }
    }
  }

  // --------------------------------------------------------------------- every run

  datatype Event =
    | Validated(w: World, connection: string, name: string, declared: Option<set<string>>)
    | Asked(w: World, connection: string, kind: CollectionKind)                    // by a user or a schedule
    | Finished(w: World, job: nat, github: seq<string>, azureRepos: seq<string>)   // hook, then completion
    | Ended(job: nat)                                                              // any other end

  predicate Possible(jobs: Jobs, e: Event) {
    e.Finished? || e.Ended? ==> e.job < |jobs| && jobs[e.job].active
  }

  function Close(jobs: Jobs, job: nat): Jobs
    requires job < |jobs|
  {
    jobs[job := jobs[job].(active := false)]
  }

  /** A hook that raises leaves its job for another attempt. */
  function After(jobs: Jobs, e: Event): (r: Jobs)
    requires Possible(jobs, e)
    ensures |r| >= |jobs|
  {
    match e
    case Validated(w, connection, name, declared) =>
      var requests := PrimaryRequests(connection, name, declared);
      if requests == None then jobs
      else
        Longer(w, jobs, requests.value, None);
        AllQueued(w, jobs, requests.value, None).0
    case Asked(w, connection, kind) => Enqueued(w, jobs, connection, kind, None).0
    case Finished(w, job, github, azureRepos) =>
      Longer(w, jobs, Dependents(jobs[job].kind, github, azureRepos), Some(job));
      var (next, raised) := Hooked(w, jobs, job, github, azureRepos);
      if raised then next else Close(next, job)
    case Ended(job) => Close(jobs, job)
  }

  lemma {:induction false} Longer(w: World, jobs: Jobs, requests: Requests, cause: Option<nat>)
    ensures |AllQueued(w, jobs, requests, cause).0| >= |jobs|
    decreases |requests|
  {
    if requests != [] {
      Longer(w, Enqueued(w, jobs, requests[0].0, requests[0].1, cause).0, requests[1..], cause);
    }
  }

  function Run(jobs: Jobs, events: seq<Event>): Option<Jobs>
    decreases |events|
  {
    if events == [] then Some(jobs)
    else if Possible(jobs, events[0]) then Run(After(jobs, events[0]), events[1..])
    else None
  }

  lemma CloseKeeps(jobs: Jobs, job: nat)
    requires UniqueActive(jobs) && Caused(jobs) && job < |jobs|
    ensures UniqueActive(Close(jobs, job)) && Caused(Close(jobs, job)) && Continues(jobs, Close(jobs, job))
  {
  }

  lemma HookKeeps(w: World, jobs: Jobs, job: nat, github: seq<string>, azureRepos: seq<string>)
    requires UniqueActive(jobs) && Caused(jobs) && job < |jobs|
    ensures var next := Hooked(w, jobs, job, github, azureRepos).0;
            UniqueActive(next) && Caused(next) && job < |next|
  {
    DependentsRankLower(jobs[job].kind, github, azureRepos);
    AllQueuedKeeps(w, jobs, Dependents(jobs[job].kind, github, azureRepos), Some(job));
  }

  lemma AfterHook(jobs: Jobs, e: Event)
    requires Possible(jobs, e) && e.Finished?
    ensures var (next, raised) := Hooked(e.w, jobs, e.job, e.github, e.azureRepos);
            |next| >= |jobs| && After(jobs, e) == if raised then next else Close(next, e.job)
  {
    Longer(e.w, jobs, Dependents(jobs[e.job].kind, e.github, e.azureRepos), Some(e.job));
  }

  lemma FinishedKeeps(jobs: Jobs, e: Event)
    requires UniqueActive(jobs) && Caused(jobs) && Possible(jobs, e) && e.Finished?
    ensures UniqueActive(After(jobs, e)) && Caused(After(jobs, e))
  {
    AfterHook(jobs, e);
    HookKeeps(e.w, jobs, e.job, e.github, e.azureRepos);
    CloseKeeps(Hooked(e.w, jobs, e.job, e.github, e.azureRepos).0, e.job);
  }

  lemma ValidatedKeeps(jobs: Jobs, e: Event)
    requires UniqueActive(jobs) && Caused(jobs) && e.Validated?
    ensures UniqueActive(After(jobs, e)) && Caused(After(jobs, e))
  {
    var requests := PrimaryRequests(e.connection, e.name, e.declared);
    if requests.Some? { AllQueuedKeeps(e.w, jobs, requests.value, None); }
  }

  lemma EventKeeps(jobs: Jobs, e: Event)
    requires UniqueActive(jobs) && Caused(jobs) && Possible(jobs, e)
    ensures UniqueActive(After(jobs, e)) && Caused(After(jobs, e))
  {
    match e
    case Validated(_, _, _, _) => ValidatedKeeps(jobs, e);
    case Asked(w, connection, kind) => EnqueuedKeeps(w, jobs, connection, kind, None);
    case Finished(_, _, _, _) => FinishedKeeps(jobs, e);
    case Ended(job) => CloseKeeps(jobs, job);
  }

  lemma {:induction false} RunKeeps(jobs: Jobs, events: seq<Event>)
    requires UniqueActive(jobs) && Caused(jobs) && Run(jobs, events).Some?
    ensures UniqueActive(Run(jobs, events).value) && Caused(Run(jobs, events).value)
    decreases |events|
  {
    if events != [] {
      EventKeeps(jobs, events[0]);
      RunKeeps(After(jobs, events[0]), events[1..]);
    }
  }

  /** How many jobs the chain of causes that ends in `j` has. */
  function ChainLength(jobs: Jobs, j: nat): nat
    requires j < |jobs| && Caused(jobs)
    decreases j
  {
    if jobs[j].cause == None then 1 else 1 + ChainLength(jobs, jobs[j].cause.value)
  }

  lemma {:induction false} ChainsEnd(jobs: Jobs, j: nat)
    requires j < |jobs| && Caused(jobs)
    ensures ChainLength(jobs, j) + Rank(jobs[j].kind) <= 2
    decreases j
  {
    if jobs[j].cause.Some? { ChainsEnd(jobs, jobs[j].cause.value); }
  }

  lemma ChainsAreShort(jobs: Jobs)
    requires Caused(jobs)
    ensures forall j :: 0 <= j < |jobs| ==> ChainLength(jobs, j) <= 2
    ensures forall j :: 0 <= j < |jobs| && ChainLength(jobs, j) == 2 ==>
              Source(jobs[j].kind) && Deploys(jobs[jobs[j].cause.value].kind)
  {
    forall j | 0 <= j < |jobs| ensures ChainLength(jobs, j) + Rank(jobs[j].kind) <= 2 {
      ChainsEnd(jobs, j);
    }
  }

  /** In every run, from an empty table: automatic collections form chains of at most two jobs, a
      primary one and a source correlation; and no connection ever has two active jobs of a kind. */
  lemma CascadesTerminate(events: seq<Event>)
    requires Run([], events).Some?
    ensures var jobs := Run([], events).value;
            && UniqueActive(jobs) && Caused(jobs)
            && (forall j :: 0 <= j < |jobs| ==> ChainLength(jobs, j) <= 2)
            && (forall j :: 0 <= j < |jobs| && ChainLength(jobs, j) == 2 ==>
                  Source(jobs[j].kind) && Deploys(jobs[jobs[j].cause.value].kind))
  {
    RunKeeps([], events);
    ChainsAreShort(Run([], events).value);
  }

  /** Queueing is idempotent while the jobs it made are active: asking again, with nothing stale, adds
      nothing, whatever the second caller's cause. */
  lemma QueueingAgainAddsNothing(w: World, jobs: Jobs, connection: string, kind: CollectionKind,
                                cause: Option<nat>, again: Option<nat>)
    requires !Enqueued(w, jobs, connection, kind, cause).1
    requires forall j :: !w.stale(j)
    ensures var jobs' := Enqueued(w, jobs, connection, kind, cause).0;
            Enqueued(w, jobs', connection, kind, again) == (jobs', false)
  {
    var jobs' := Enqueued(w, jobs, connection, kind, cause).0;
    assert Expired(w, jobs, connection, kind) == jobs;
    assert Expired(w, jobs', connection, kind) == jobs';
    assert Holds(jobs', connection, kind) by {
      if |jobs'| > |jobs| { assert jobs'[|jobs|].active; }
    }
  }
}
