/** Hard runtimes and leases of the durable workers, in microseconds (the resolution of the
    database clock). */
module WorkerLimits {

  const SECOND := 1_000_000

  const WORKER_LEASE_GRACE := 300 * SECOND
  const COLLECTION_WORKER_TIMEOUT := 2400 * SECOND
  const COLLECTION_WORKER_LEASE := COLLECTION_WORKER_TIMEOUT + WORKER_LEASE_GRACE

  /** Longest continuation delay a slice asks for. */
  const MAX_CONTINUATION_DELAY := 7200 * SECOND
  /** Delay before a failed slice is due again. */
  const RETRY_DELAY := 30 * SECOND
  /** A resumable job older than this is failed by every operation that looks at it. */
  const RESUMABLE_WINDOW := 48 * 3600 * SECOND
  /** A queued job of any other kind older than this is failed when its status is read. */
  const DISPATCH_WINDOW := 30 * 60 * SECOND
}
