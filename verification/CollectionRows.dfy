/** One row of the collection-job table and what each statement of the store does to it.

    The functions here are decision tables: they give the verdict of a store call in one place.
    The class in CollectionStore.dfy runs the store's statements one after another and is proved
    to reach the same verdict. */
module CollectionRows {
  import opened Options
  import opened WorkerLimits

  datatype Provider = Aws | Azure | Entra | Gcp | Github | AzureRepos | GoogleWorkspace

  datatype CollectionKind =
    | AwsDeployments | AwsAgentRuntime
    | AzureDeployments | AzureAgentRuntime
    | EntraAi | GcpDeployments | GithubSource | AzureReposSource | GoogleWorkspaceAi

  function KindsOf(provider: Provider): set<CollectionKind> {
    match provider
    case Aws => {AwsDeployments, AwsAgentRuntime}
    case Azure => {AzureDeployments, AzureAgentRuntime}
    case Entra => {EntraAi}
    case Gcp => {GcpDeployments}
    case Github => {GithubSource}
    case AzureRepos => {AzureReposSource}
    case GoogleWorkspace => {GoogleWorkspaceAi}
  }

  /** The connection a job belongs to. */
  datatype Connection = Connection(provider: Provider, active: bool)

  datatype RepositoryOutcome = Unfinished | Complete | Partial | Failed

  /** Resumable progress: an outcome and opaque metadata per repository. */
  datatype Checkpoint = Checkpoint(repositories: map<string, (RepositoryOutcome, string)>)

  function NamesWith(c: Checkpoint, outcome: RepositoryOutcome): set<string> {
    set name | name in c.repositories && c.repositories[name].0 == outcome
  }

  /** Repositories a checkpoint counts as completed: complete, partial or failed. */
  function CompletedCount(c: Checkpoint): nat {
    |set name | name in c.repositories && c.repositories[name].0 != Unfinished|
  }

  lemma CompletedAddsUp(c: Checkpoint)
    ensures CompletedCount(c) == |NamesWith(c, Complete)| + |NamesWith(c, Partial)| + |NamesWith(c, Failed)|
  {
    var complete, partial, failed := NamesWith(c, Complete), NamesWith(c, Partial), NamesWith(c, Failed);
    assert (set name | name in c.repositories && c.repositories[name].0 != Unfinished) == complete + partial + failed;
    assert |complete + partial| == |complete| + |partial|;
    assert |complete + partial + failed| == |complete + partial| + |failed|;
  }

  /** What a collector reports, reduced to the fields the worker and the store read. */
  datatype Report = Report(completed: int, failed: int, partial: int, resumePending: bool, retryAfterSeconds: int)

  datatype JobState = Queued | Running | Succeeded | Terminated

  datatype Job = Job(
    kind: CollectionKind,
    state: JobState,
    attemptCount: nat,
    retryCount: nat,
    continuationCount: nat,
    createdAt: int,
    availableAt: int,
    leaseExpiresAt: Option<int>,
    checkpoint: Checkpoint,
    result: Report)

  predicate Active(job: Job) {
    job.state == Queued || job.state == Running
  }

  predicate Terminal(job: Job) {
    !Active(job)
  }

  predicate WithinWindow(job: Job, now: int) {
    job.createdAt > now - RESUMABLE_WINDOW
  }

  /** A NULL lease compares as unknown, so it is neither expired nor live. */
  predicate LeaseExpired(job: Job, now: int) {
    job.leaseExpiresAt.Some? && job.leaseExpiresAt.value < now
  }

  predicate LeaseLive(job: Job, now: int) {
    job.leaseExpiresAt.Some? && job.leaseExpiresAt.value > now
  }

  function Stopped(job: Job): Job {
    job.(state := Terminated, leaseExpiresAt := None)
  }

  const EMPTY := Checkpoint(map[])
  const NO_REPORT := Report(0, 0, 0, false, 0)

  /** A row as inserted by the queueing call. A retry of an incomplete GitHub result starts from what
      the earlier job had completed. */
  function SeededJob(kind: CollectionKind, now: int, seed: Checkpoint, report: Report): Job {
    Job(kind, Queued, 0, 0, 0, now, now, None, seed, report)
  }

  function FreshJob(kind: CollectionKind, now: int): Job { SeededJob(kind, now, EMPTY, NO_REPORT) }

  // ---------------------------------------------------------------- claims

  /** Why a claim takes the row, fails it or leaves it alone. */
  datatype ClaimVerdict = Take | Leave | Stop | StopAfterRetries

  function ClaimVerdictFor(job: Job, conn: Connection, now: int): ClaimVerdict {
    if Terminal(job) then Leave
    else if job.kind == GithubSource
            && (conn.provider != Github || !WithinWindow(job, now) || !conn.active) then Stop
    else if job.state == Running && !LeaseExpired(job, now) then Leave
    else if job.state == Running && job.kind == GithubSource && job.retryCount >= 2 then StopAfterRetries
    else if job.availableAt > now then Leave
    else Take
  }

  function ClaimRow(job: Job, conn: Connection, now: int, lease: nat): Job {
    match ClaimVerdictFor(job, conn, now)
    case Leave => job
    case Stop => Stopped(job)
    case StopAfterRetries => Stopped(job).(retryCount := job.retryCount + 1)
    case Take =>
      job.(state := Running,
           attemptCount := job.attemptCount + 1,
           retryCount := if job.kind == GithubSource && job.state == Running then job.retryCount + 1
                         else job.retryCount,
           leaseExpiresAt := Some(now + lease))
  }

  // ------------------------------------------------ generation-fenced calls

  /** The claim of generation `generation` is still the one the row grants. */
  predicate ClaimCurrent(job: Job, conn: Connection, generation: nat, now: int) {
    && job.kind == GithubSource
    && job.state == Running
    && job.attemptCount == generation
    && LeaseLive(job, now)
    && WithinWindow(job, now)
    && conn.provider == Github
    && conn.active
  }

  function SaveRow(job: Job, checkpoint: Checkpoint): Job {
    var completed := CompletedCount(checkpoint);
    job.(checkpoint := checkpoint,
         retryCount := if completed > job.result.completed then 0 else job.retryCount,
         result := job.result.(completed := completed, failed := |NamesWith(checkpoint, Failed)|,
                               partial := |NamesWith(checkpoint, Partial)|))
  }

  function DeferRow(job: Job, checkpoint: Checkpoint, report: Report, now: int, delay: nat): Job {
    job.(checkpoint := checkpoint,
         result := report,
         state := Queued,
         continuationCount := job.continuationCount + 1,
         availableAt := now + delay,
         leaseExpiresAt := None)
  }

  function CompleteRow(job: Job, report: Report): Job {
    job.(state := Succeeded, result := report, leaseExpiresAt := None)
  }

  function RetryRow(job: Job, now: int, maxAttempts: nat, delay: nat): Job {
    job.(retryCount := job.retryCount + 1,
         state := if job.retryCount + 1 < maxAttempts then Queued else Terminated,
         availableAt := now + delay,
         leaseExpiresAt := None)
  }

  // -------------------------------------------------------- unfenced calls

  function RecordFailureRow(job: Job, maxAttempts: nat): Job {
    if job.state != Running then job
    else job.(state := if job.attemptCount < maxAttempts then Queued else Terminated, leaseExpiresAt := None)
  }

  function CompleteUnfencedRow(job: Job, report: Report): Job {
    if job.state != Running then job else CompleteRow(job, report)
  }

  /** A dispatch that raised fails the row, whatever the container it may have started is doing. */
  function FailDispatchRow(job: Job): Job {
    if Active(job) then Stopped(job) else job
  }

  /** Status reads and queueing calls fail stale rows of every kind but GitHub source. */
  function ExpireRow(job: Job, now: int): Job {
    if job.kind != GithubSource
       && ((job.state == Running && LeaseExpired(job, now))
           || (job.state == Queued && job.createdAt < now - DISPATCH_WINDOW))
    then Stopped(job)
    else job
  }

  // --------------------------------------------------------------- recovery

  /** First half of the recovery call: GitHub rows that can no longer run are failed. */
  function RecoverRow(job: Job, conn: Connection, now: int): Job {
    if job.kind == GithubSource && Active(job)
       && (!conn.active || conn.provider != Github || !WithinWindow(job, now))
    then Stopped(job)
    else job
  }

  /** Second half: the rows the recovery call lists for redispatch. */
  predicate Due(job: Job, conn: Connection, now: int) {
    && job.kind == GithubSource
    && job.availableAt <= now
    && WithinWindow(job, now)
    && conn.provider == Github
    && conn.active
    && (job.state == Queued || (job.state == Running && LeaseExpired(job, now)))
  }
}
