/** The store's side of the protocol: the statements each call runs against the job row. */
module CollectionStore {
  import opened Options
  import opened WorkerLimits
  import opened CollectionRows

  class JobStore {
    var now: int
    var connection: Connection
    var row: Job

    constructor (kind: CollectionKind, connection: Connection, now: int, seed: Checkpoint, report: Report)
      ensures this.now == now && this.connection == connection && row == SeededJob(kind, now, seed, report)
    {
      this.now := now;
      this.connection := connection;
      this.row := SeededJob(kind, now, seed, report);
    }

    /** Five statements in one transaction; together they reach the verdict of `ClaimVerdictFor`. */
    method Claim(lease: nat) returns (job: Option<Job>)
      modifies this`row
      ensures row == ClaimRow(old(row), connection, now, lease)
      ensures job == if ClaimVerdictFor(old(row), connection, now) == Take then Some(row) else None
    {
      var github := row.kind == GithubSource;
      if github && connection.provider != Github {
        if Active(row) { row := Stopped(row); }
        return None;
      }
      if github && Active(row) && row.createdAt <= now - RESUMABLE_WINDOW { row := Stopped(row); }
      if !connection.active {
        if github && Active(row) { row := Stopped(row); }
      }
      if github && row.state == Running && LeaseExpired(row, now) && row.retryCount >= 2 {
        row := Stopped(row).(retryCount := row.retryCount + 1);
      }
      if row.availableAt <= now && (!github || connection.active)
         && (row.state == Queued || (row.state == Running && LeaseExpired(row, now)))
      {
        row := row.(state := Running,
                    attemptCount := row.attemptCount + 1,
                    retryCount := row.retryCount + (if github && row.state == Running then 1 else 0),
                    leaseExpiresAt := Some(now + lease));
        return Some(row);
      }
      return None;
    }

    method IsCurrent(generation: nat) returns (current: bool)
      ensures current == ClaimCurrent(row, connection, generation, now)
    {
      current := row.attemptCount == generation && row.kind == GithubSource && row.state == Running
        && LeaseLive(row, now) && row.createdAt > now - RESUMABLE_WINDOW
        && connection.provider == Github && connection.active;
    }

    /** The guarded UPDATE every generation-carrying call goes through. */
    method UpdateResumable(generation: nat, updated: Job) returns (done: bool)
      modifies this`row
      ensures done == ClaimCurrent(old(row), connection, generation, now)
      ensures row == if done then updated else old(row)
    {
      if connection.provider != Github || !connection.active { return false; }
      if row.kind == GithubSource && row.state == Running && row.attemptCount == generation
         && LeaseLive(row, now) && row.createdAt > now - RESUMABLE_WINDOW
      {
        row := updated;
        return true;
      }
      return false;
    }

    method SaveCheckpoint(generation: nat, checkpoint: Checkpoint) returns (saved: bool)
      modifies this`row
      ensures saved == ClaimCurrent(old(row), connection, generation, now)
      ensures row == if saved then SaveRow(old(row), checkpoint) else old(row)
    {
      saved := UpdateResumable(generation, SaveRow(row, checkpoint));
    }

    method Defer(generation: nat, checkpoint: Checkpoint, report: Report, delay: nat) returns (queued: bool)
      modifies this`row
      ensures queued == ClaimCurrent(old(row), connection, generation, now)
      ensures row == if queued then DeferRow(old(row), checkpoint, report, now, delay) else old(row)
    {
      queued := UpdateResumable(generation, DeferRow(row, checkpoint, report, now, delay));
    }

    method CompleteResumable(generation: nat, report: Report) returns (done: bool)
      modifies this`row
      ensures done == ClaimCurrent(old(row), connection, generation, now)
      ensures row == if done then CompleteRow(old(row), report) else old(row)
    {
      done := UpdateResumable(generation, CompleteRow(row, report));
    }

    method RetryResumable(generation: nat, maxAttempts: nat, delay: nat) returns (queued: bool)
      modifies this`row
      ensures var current := ClaimCurrent(old(row), connection, generation, now);
              && row == (if current then RetryRow(old(row), now, maxAttempts, delay) else old(row))
              && queued == (current && row.state == Queued)
    {
      var done := UpdateResumable(generation, RetryRow(row, now, maxAttempts, delay));
      queued := done && row.state == Queued;
    }

    /** Unfenced: acts on whatever claim the row is under. */
    method Complete(report: Report)
      modifies this`row
      ensures row == CompleteUnfencedRow(old(row), report)
    {
      if row.state == Running {
        row := row.(state := Succeeded, result := report, leaseExpiresAt := None);
      }
    }

    /** Unfenced: acts on whatever claim the row is under. */
    method RecordFailure(maxAttempts: nat) returns (retry: bool)
      modifies this`row
      ensures row == RecordFailureRow(old(row), maxAttempts)
      ensures retry == (old(row).state == Running && row.state == Queued)
    {
      if row.state != Running { return false; }
      retry := row.attemptCount < maxAttempts;
      row := row.(state := if retry then Queued else Terminated, leaseExpiresAt := None);
    }
  }
}
