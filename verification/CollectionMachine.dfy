/** The durable collection protocol as a machine: one job row, its connection, a clock and any
    number of worker containers that run `run_durable_collection_job` against the row, one store
    call at a time and in any order, while containers crash, pause or are killed, calls raise
    before or after they commit, and dispatches are repeated or lost. */
module CollectionMachine {
  import opened Options
  import opened WorkerLimits
  import opened CollectionRows

  /** `killBound` is how long after its start a container can still act. */
  datatype Config = Config(lease: nat, killBound: nat, maxAttempts: nat, resumable: bool, hooked: bool)

  predicate ValidConfig(cfg: Config) {
    && SECOND <= cfg.lease <= 86_400 * SECOND
    && 1 <= cfg.maxAttempts <= 5
  }

  /** The deployed worker: default lease and attempts, container killed at its hard timeout. */
  const DEPLOYED := Config(COLLECTION_WORKER_LEASE, COLLECTION_WORKER_TIMEOUT, 3, true, true)

  /** What a slice has done with its checkpoint: the one it claimed, what the dictionary it gave to the
      collector holds, the last save it saw accepted, the last save that took effect, and whether a
      save raised since the last accepted one. */
  datatype Progress = Progress(start: Checkpoint, passed: Checkpoint,
                               acked: Option<Checkpoint>, durable: Option<Checkpoint>, raised: bool)

  /** The slice's variable: a copy of the last accepted save, or the dictionary it gave away. */
  function HandedOver(p: Progress): Checkpoint { p.acked.GetOr(p.passed) }

  function LastDurable(p: Progress): Checkpoint { p.durable.GetOr(p.start) }

  predicate Faithful(p: Progress) { HandedOver(p) == LastDurable(p) }

  /** Where a worker stands in `run_durable_collection_job`; `gen` is the generation it claimed. */
  datatype Pc =
    | Idle                                                    // before the next claim
    | Claimed(gen: nat, kind: CollectionKind, start: Checkpoint)
    | Slice(gen: nat, progress: Progress)                     // collect_resumable runs
    | SliceDefer(gen: nat, progress: Progress, report: Report)
    | SliceDispatch(gen: nat)
    | SliceCheck(gen: nat, report: Report)                    // current? before the hook
    | SliceHook(gen: nat, report: Report)
    | SliceComplete(gen: nat, report: Report)
    | SliceError(gen: nat)                                    // current? in the handler
    | SliceRetry(gen: nat)
    | Plain(gen: nat, kind: CollectionKind)                   // collect runs
    | PlainHook(gen: nat, kind: CollectionKind, report: Report)
    | PlainComplete(gen: nat, kind: CollectionKind, report: Report)
    | OuterCheck(gen: nat)
    | OuterRetry(gen: nat)
    | Recording(gen: nat, kind: CollectionKind)               // about to record an unfenced failure
    | Done
    | Killed

  /** How a store call ends: normally, raising without effect, or raising after its commit. */
  datatype Fault = Clean | LostBefore | LostAfter

  datatype CollectorChoice = Missing | PlainOnly | Resumable

  /** One step of a worker: a store call, or something its collector or hook does. */
  datatype Act =
    | Claim(fault: Fault)
    | Lookup(fault: Fault, collector: CollectorChoice)
    | Mutate(value: Checkpoint)            // the dictionary the collector was given now holds this
    | Save(value: Checkpoint, fault: Fault)
    | CollectReturn(report: Report)
    | CollectRaise
    | Defer(fault: Fault)
    | Dispatch
    | Check(fault: Fault)
    | Hook(raises: bool)
    | Finish(fault: Fault)
    | Retry(fault: Fault)
    | Record(fault: Fault)

  datatype Answer = Raised | Silent | Yes | No | Granted(job: Job)

  datatype Worker = Worker(startedAt: int, claims: nat, pc: Pc)

  /** A write of the stored checkpoint that took effect. */
  datatype Write = Write(gen: nat, value: Checkpoint, deferral: bool)

  datatype State = State(
    now: int,
    conn: Connection,
    seed: Checkpoint,                     // the checkpoint the row was inserted with
    row: Job,
    workers: map<nat, Worker>,
    writes: seq<Write>,                   // checkpoint writes, oldest first
    hookReturned: set<(nat, nat)>,        // (worker, generation) whose success hook returned
    hookRaised: set<(nat, nat)>,          // (worker, generation) whose success hook raised
    succeededBy: Option<(nat, nat)>)      // who recorded success

  predicate Init(s: State) {
    && s.row == SeededJob(s.row.kind, s.now, s.seed, s.row.result)
    && (s.row.kind != GithubSource ==> s.row == FreshJob(s.row.kind, s.now))
    && s.workers == map[] && s.writes == []
    && s.hookReturned == {} && s.hookRaised == {} && s.succeededBy == None
  }

  function Distance(a: int, b: int): nat { if a < b then b - a else a - b }

  /** The delay a slice passes on: of the delays up to 7200 seconds, the nearest to the collector's
      wish. */
  function SliceDelay(report: Report): (delay: nat)
    ensures delay <= MAX_CONTINUATION_DELAY
    ensures forall other: nat :: other <= MAX_CONTINUATION_DELAY ==>
              Distance(delay, report.retryAfterSeconds * SECOND) <= Distance(other, report.retryAfterSeconds * SECOND)
  {
    if report.retryAfterSeconds < 0 then 0
    else if report.retryAfterSeconds > 7200 then 7200 * SECOND
    else report.retryAfterSeconds * SECOND
  }

  predicate Fits(pc: Pc, act: Act) {
    match act
    case Claim(_) => pc.Idle?
    case Lookup(_, _) => pc.Claimed?
    case Mutate(_) => pc.Slice?
    case Save(_, _) => pc.Slice?
    case CollectReturn(_) => pc.Slice? || pc.Plain?
    case CollectRaise => pc.Slice? || pc.Plain?
    case Defer(_) => pc.SliceDefer?
    case Dispatch => pc.SliceDispatch?
    case Check(_) => pc.SliceCheck? || pc.SliceError? || pc.OuterCheck?
    case Hook(_) => pc.SliceHook? || pc.PlainHook?
    case Finish(_) => pc.SliceComplete? || pc.PlainComplete?
    case Retry(_) => pc.SliceRetry? || pc.OuterRetry?
    case Record(_) => pc.Recording?
  }

  // ------------------------------------------------ effect of a step on the row

  function Deliver(fault: Fault, before: Job, after: Job, answer: Answer): (Job, Answer) {
    match fault
    case Clean => (after, answer)
    case LostBefore => (before, Raised)
    case LostAfter => (after, Raised)
  }

  function Fenced(s: State, gen: nat, after: Job, fault: Fault): (Job, Answer) {
    if ClaimCurrent(s.row, s.conn, gen, s.now) then Deliver(fault, s.row, after, Yes)
    else Deliver(fault, s.row, s.row, No)
  }

  function Effect(cfg: Config, s: State, pc: Pc, act: Act): (Job, Answer)
    requires Fits(pc, act)
  {
    match act
    case Claim(fault) =>
      var row := ClaimRow(s.row, s.conn, s.now, cfg.lease);
      Deliver(fault, s.row, row,
              if ClaimVerdictFor(s.row, s.conn, s.now) == Take then Granted(row) else No)
    case Lookup(fault, collector) =>
      Deliver(fault, s.row, s.row,
              if s.conn.active && pc.kind in KindsOf(s.conn.provider) && !collector.Missing? then Yes else Raised)
    case Save(value, fault) => Fenced(s, pc.gen, SaveRow(s.row, value), fault)
    case Defer(fault) =>
      Fenced(s, pc.gen, DeferRow(s.row, HandedOver(pc.progress), pc.report, s.now, SliceDelay(pc.report)), fault)
    case Check(fault) => Fenced(s, pc.gen, s.row, fault)
    case Finish(fault) =>
      if pc.SliceComplete? then Fenced(s, pc.gen, CompleteRow(s.row, pc.report), fault)
      else Deliver(fault, s.row, CompleteUnfencedRow(s.row, pc.report), Silent)
    case Retry(fault) =>
      var (row, answer) := Fenced(s, pc.gen, RetryRow(s.row, s.now, cfg.maxAttempts, RETRY_DELAY), fault);
      (row, if answer == Yes && row.state != Queued then No else answer)
    case Record(fault) =>
      var row := RecordFailureRow(s.row, cfg.maxAttempts);
      Deliver(fault, s.row, row, if s.row.state == Running && row.state == Queued then Yes else No)
    case Hook(raises) => (s.row, if raises then Raised else Silent)
    case Mutate(_) => (s.row, Silent)
    case CollectReturn(_) => (s.row, Silent)
    case CollectRaise => (s.row, Raised)
    case Dispatch => (s.row, Silent)
  }

  // ------------------------------------------------ the worker's program

  /** Handler of an exception outside a slice. */
  function OuterError(cfg: Config, gen: nat, kind: CollectionKind): Pc {
    if cfg.resumable && kind == GithubSource then OuterCheck(gen) else Recording(gen, kind)
  }

  function NextPc(cfg: Config, w: Worker, act: Act, answer: Answer): Pc
    requires Fits(w.pc, act)
  {
    var pc := w.pc;
    match act
    case Claim(_) =>
      if answer.Granted? then Claimed(answer.job.attemptCount, answer.job.kind, answer.job.checkpoint) else Done
    case Lookup(_, collector) =>
      if answer != Yes then OuterError(cfg, pc.gen, pc.kind)
      else if cfg.resumable && pc.kind == GithubSource && collector == Resumable
      then Slice(pc.gen, Progress(pc.start, pc.start, None, None, false))
      else Plain(pc.gen, pc.kind)
    case Mutate(value) => Slice(pc.gen, pc.progress.(passed := value))
    case Save(value, _) =>
      if answer == Yes then Slice(pc.gen, pc.progress.(acked := Some(value), raised := false))
      else if answer == No then pc
      else Slice(pc.gen, pc.progress.(raised := true))
    case CollectReturn(report) =>
      if pc.Plain? then
        if cfg.hooked then PlainHook(pc.gen, pc.kind, report) else PlainComplete(pc.gen, pc.kind, report)
      else if report.resumePending then SliceDefer(pc.gen, pc.progress, report)
      else SliceCheck(pc.gen, report)
    case CollectRaise => if pc.Slice? then SliceError(pc.gen) else OuterError(cfg, pc.gen, pc.kind)
    case Defer(_) =>
      if answer == Raised then SliceError(pc.gen)
      else if answer == Yes && SliceDelay(pc.report) == 0 then SliceDispatch(pc.gen)
      else Done
    case Dispatch => Done
    case Check(_) =>
      if pc.SliceCheck? then
        if answer == Raised then SliceError(pc.gen)
        else if answer == No then Done
        else if cfg.hooked then SliceHook(pc.gen, pc.report)
        else SliceComplete(pc.gen, pc.report)
      else if answer != Yes then Done
      else if pc.SliceError? then SliceRetry(pc.gen)
      else OuterRetry(pc.gen)
    case Hook(raises) =>
      if pc.SliceHook? then
        if raises then SliceError(pc.gen) else SliceComplete(pc.gen, pc.report)
      else
        if raises then OuterError(cfg, pc.gen, pc.kind) else PlainComplete(pc.gen, pc.kind, pc.report)
    case Finish(_) =>
      if answer != Raised then Done
      else if pc.SliceComplete? then SliceError(pc.gen)
      else OuterError(cfg, pc.gen, pc.kind)
    case Retry(_) => Done
    case Record(_) => if answer == Yes && w.claims < cfg.maxAttempts then Idle else Done
  }

  /** The observer's note of a save that took effect, whether or not the slice was told. */
  function Noted(pc: Pc, act: Act, committed: bool): Pc {
    if pc.Slice? && act.Save? && committed then Slice(pc.gen, pc.progress.(durable := Some(act.value))) else pc
  }

  // ------------------------------------------------ steps of the whole system

  datatype Label =
    | Spawn(id: nat)
    | Kill(id: nat)
    | Tick(elapsed: nat)
    | SetConnection(conn: Connection)
    | FailDispatch
    | Expire
    | Recover
    | Work(id: nat, act: Act)

  /** The container still runs. */
  predicate Live(w: Worker) { !w.pc.Killed? && !w.pc.Done? }

  predicate Enabled(cfg: Config, s: State, l: Label) {
    match l
    case Spawn(id) => id !in s.workers
    case Kill(id) => id in s.workers
    case Tick(elapsed) =>
      forall id :: id in s.workers && Live(s.workers[id]) ==>
        s.now + elapsed <= s.workers[id].startedAt + cfg.killBound
    case Work(id, act) => id in s.workers && Fits(s.workers[id].pc, act)
    case _ => true
  }

  /** The generation a step writes the stored checkpoint under, and the value. */
  function WriteOf(s: State, pc: Pc, act: Act): Option<Write>
    requires Fits(pc, act)
  {
    match act
    case Save(value, fault) =>
      if fault != LostBefore && ClaimCurrent(s.row, s.conn, pc.gen, s.now)
      then Some(Write(pc.gen, value, false)) else None
    case Defer(fault) =>
      if fault != LostBefore && ClaimCurrent(s.row, s.conn, pc.gen, s.now)
      then Some(Write(pc.gen, HandedOver(pc.progress), true)) else None
    case _ => None
  }

  function WorkStep(cfg: Config, s: State, id: nat, act: Act): State
    requires id in s.workers && Fits(s.workers[id].pc, act)
  {
    var w := s.workers[id];
    var (row, answer) := Effect(cfg, s, w.pc, act);
    var written := WriteOf(s, w.pc, act);
    var w' := Worker(w.startedAt, if act.Claim? then w.claims + 1 else w.claims,
                     Noted(NextPc(cfg, w, act, answer), act, written.Some?));
    s.(row := row,
       workers := s.workers[id := w'],
       writes := if written.Some? then s.writes + [written.value] else s.writes,
       hookReturned := if act.Hook? && !act.raises then s.hookReturned + {(id, w.pc.gen)} else s.hookReturned,
       hookRaised := if act.Hook? && act.raises then s.hookRaised + {(id, w.pc.gen)} else s.hookRaised,
       succeededBy := if act.Finish? && row.state == Succeeded && s.row.state != Succeeded
                      then Some((id, w.pc.gen)) else s.succeededBy)
  }

  function Apply(cfg: Config, s: State, l: Label): State
    requires Enabled(cfg, s, l)
  {
    match l
    case Spawn(id) => s.(workers := s.workers[id := Worker(s.now, 0, Idle)])
    case Kill(id) => s.(workers := s.workers[id := s.workers[id].(pc := Killed)])
    case Tick(elapsed) => s.(now := s.now + elapsed)
    case SetConnection(conn) => s.(conn := conn)
    case FailDispatch => s.(row := FailDispatchRow(s.row))
    case Expire => s.(row := ExpireRow(s.row, s.now))
    case Recover => s.(row := RecoverRow(s.row, s.conn, s.now))
    case Work(id, act) => WorkStep(cfg, s, id, act)
  }

  /** The state a run reaches, or None when one of its steps was not enabled. */
  function Exec(cfg: Config, s: State, ls: seq<Label>): Option<State>
    decreases |ls|
  {
    if ls == [] then Some(s)
    else if Enabled(cfg, s, ls[0]) then Exec(cfg, Apply(cfg, s, ls[0]), ls[1..])
    else None
  }

  ghost predicate Reachable(cfg: Config, s: State) {
    exists s0, ls :: Init(s0) && Exec(cfg, s0, ls) == Some(s)
  }

  lemma {:induction false} ExecAppend(cfg: Config, s: State, ls: seq<Label>, l: Label)
    requires Exec(cfg, s, ls).Some? && Enabled(cfg, Exec(cfg, s, ls).value, l)
    ensures Exec(cfg, s, ls + [l]) == Some(Apply(cfg, Exec(cfg, s, ls).value, l))
    decreases |ls|
  {
    if ls == [] {
      assert ls + [l] == [l];
    } else {
      assert (ls + [l])[0] == ls[0] && (ls + [l])[1..] == ls[1..] + [l];
      ExecAppend(cfg, Apply(cfg, s, ls[0]), ls[1..], l);
    }
  }

  lemma {:induction false} ExecConcat(cfg: Config, s: State, ls: seq<Label>, more: seq<Label>)
    requires Exec(cfg, s, ls).Some?
    ensures Exec(cfg, s, ls + more) == Exec(cfg, Exec(cfg, s, ls).value, more)
    decreases |ls|
  {
    if ls == [] {
      assert ls + more == more;
    } else {
      assert (ls + more)[0] == ls[0] && (ls + more)[1..] == ls[1..] + more;
      ExecConcat(cfg, Apply(cfg, s, ls[0]), ls[1..], more);
    }
  }
}
