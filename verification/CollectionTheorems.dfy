/** The promises of the durable collection protocol, over every run of the machine. */
module CollectionTheorems {
  import opened Options
  import opened WorkerLimits
  import opened CollectionRows
  import opened CollectionMachine
  import opened CollectionSafety
  import opened CollectionRecovery
  import opened Sequences

  // ------------------------------------------------- single ownership and timing

  /** A connection for jobs of the two kinds the witnesses use: Entra, whose calls are never fenced,
      and GitHub. */
  function ProbeConnection(github: bool): Connection { Connection(if github then Github else Entra, true) }

  function ProbeKind(github: bool): CollectionKind { if github then GithubSource else EntraAi }

  function ProbeStart(github: bool): State {
    State(0, ProbeConnection(github), EMPTY, FreshJob(ProbeKind(github), 0), map[], [], {}, {}, None)
  }

  /** A GitHub job must still be inside its window when the second claim comes. */
  predicate InTime(cfg: Config, github: bool) { github ==> cfg.lease + 1 < RESUMABLE_WINDOW }

  lemma ReachableStep(cfg: Config, s: State, l: Label, s': State)
    requires Reachable(cfg, s) && Enabled(cfg, s, l) && Apply(cfg, s, l) == s'
    ensures Reachable(cfg, s')
  {
    var s0, ls :| Init(s0) && Exec(cfg, s0, ls) == Some(s);
    ExecAppend(cfg, s0, ls, l);
  }

  lemma InitReachable(cfg: Config, s: State)
    requires Init(s)
    ensures Reachable(cfg, s)
  {
    assert Exec(cfg, s, []) == Some(s);
  }

  function ProbeRow(cfg: Config, github: bool): Job {
    FreshJob(ProbeKind(github), 0).(state := Running, attemptCount := 1, leaseExpiresAt := Some(cfg.lease))
  }

  function ProbeState(cfg: Config, github: bool, pc: Pc): State {
    ProbeStart(github).(row := ProbeRow(cfg, github), workers := map[0 := Worker(0, 1, pc)])
  }

  /** Worker 0 claims. */
  lemma ProbeClaims(cfg: Config, github: bool)
    ensures Reachable(cfg, ProbeState(cfg, github, Claimed(1, ProbeKind(github), EMPTY)))
  {
    var s0, row := ProbeStart(github), ProbeRow(cfg, github);
    var claimed := Worker(0, 1, Claimed(1, ProbeKind(github), EMPTY));
    var s1 := s0.(workers := s0.workers[0 := Worker(0, 0, Idle)]);
    InitReachable(cfg, s0);
    TakenClaim(cfg, s0, row, s1, 0, claimed);
    ReachableStep(cfg, s0, Spawn(0), s1);
    var s2 := s0.(row := row, workers := s0.workers[0 := claimed]);
    ReachableStep(cfg, s1, Work(0, Claim(Clean)), s2);
    assert s2 == ProbeState(cfg, github, claimed.pc);
  }

  /** A new container, and its claim of a row that is queued or whose lease has expired. */
  lemma TakenClaim(cfg: Config, s: State, row: Job, spawned: State, id: nat, claimed: Worker)
    requires id !in s.workers && ClaimVerdictFor(s.row, s.conn, s.now) == Take
    requires row == ClaimRow(s.row, s.conn, s.now, cfg.lease)
    requires spawned == s.(workers := s.workers[id := Worker(s.now, 0, Idle)])
    requires claimed == Worker(s.now, 1, Claimed(row.attemptCount, s.row.kind, s.row.checkpoint))
    ensures Enabled(cfg, s, Spawn(id)) && Apply(cfg, s, Spawn(id)) == spawned
    ensures Enabled(cfg, spawned, Work(id, Claim(Clean)))
    ensures Apply(cfg, spawned, Work(id, Claim(Clean))) == s.(row := row, workers := s.workers[id := claimed])
  {
    assert spawned.workers[id := claimed] == s.workers[id := claimed];
  }

  lemma PlainChosen(cfg: Config, github: bool, s: State)
    requires s == ProbeState(cfg, github, Claimed(1, ProbeKind(github), EMPTY))
    ensures Enabled(cfg, s, Work(0, Lookup(Clean, PlainOnly)))
    ensures Apply(cfg, s, Work(0, Lookup(Clean, PlainOnly))) == ProbeState(cfg, github, Plain(1, ProbeKind(github)))
  {
  }

  /** Worker 0 collects outside a slice, outlives its lease, and worker 1 claims behind its back. */
  lemma OverlapReached(cfg: Config, github: bool) returns (s: State)
    requires cfg.killBound > cfg.lease && InTime(cfg, github)
    ensures Reachable(cfg, s)
    ensures s.workers.Keys == {0, 1} && s.row.state == Running && s.row.attemptCount == 2
    ensures s.workers[0].pc == Plain(1, ProbeKind(github)) && s.workers[1].pc.Claimed? && s.workers[1].pc.gen == 2
    ensures s.succeededBy == None && s.row.kind == ProbeKind(github)
  {
    ProbeClaims(cfg, github);
    var s2 := ProbeState(cfg, github, Claimed(1, ProbeKind(github), EMPTY));
    var s3 := ProbeState(cfg, github, Plain(1, ProbeKind(github)));
    PlainChosen(cfg, github, s2);
    ReachableStep(cfg, s2, Work(0, Lookup(Clean, PlainOnly)), s3);
    s := SecondClaim(cfg, github, s3);
  }

  lemma SecondClaim(cfg: Config, github: bool, s3: State) returns (s: State)
    requires cfg.killBound > cfg.lease && InTime(cfg, github)
    requires s3 == ProbeState(cfg, github, Plain(1, ProbeKind(github))) && Reachable(cfg, s3)
    ensures Reachable(cfg, s)
    ensures s.workers.Keys == {0, 1} && s.row.state == Running && s.row.attemptCount == 2
    ensures s.workers[0] == s3.workers[0] && s.workers[1].pc.Claimed? && s.workers[1].pc.gen == 2
    ensures s.succeededBy == None && s.row.kind == ProbeKind(github)
  {
    var s4 := s3.(now := cfg.lease + 1);
    ReachableStep(cfg, s3, Tick(cfg.lease + 1), s4);
    s := ClaimBehind(cfg, github, s4);
  }

  lemma ClaimBehind(cfg: Config, github: bool, s4: State) returns (s: State)
    requires InTime(cfg, github) && Reachable(cfg, s4)
    requires s4 == ProbeState(cfg, github, Plain(1, ProbeKind(github))).(now := cfg.lease + 1)
    ensures Reachable(cfg, s)
    ensures s.workers.Keys == {0, 1} && s.row.state == Running && s.row.attemptCount == 2
    ensures s.workers[0] == s4.workers[0] && s.workers[1].pc.Claimed? && s.workers[1].pc.gen == 2
    ensures s.succeededBy == None && s.row.kind == ProbeKind(github)
  {
    var row := ClaimRow(s4.row, s4.conn, s4.now, cfg.lease);
    var s5 := s4.(workers := s4.workers[1 := Worker(s4.now, 0, Idle)]);
    var claimed := Worker(s4.now, 1, Claimed(2, ProbeKind(github), EMPTY));
    TakenClaim(cfg, s4, row, s5, 1, claimed);
    ReachableStep(cfg, s4, Spawn(1), s5);
    s := s4.(row := row, workers := s4.workers[1 := claimed]);
    ReachableStep(cfg, s5, Work(1, Claim(Clean)), s);
  }

  /** Exact timing condition: containers never overlap on the job, in any run, if and only if the
      lease lasts at least as long as a container can act after its start. */
  lemma ExclusionExactlyWhenLeaseOutlivesContainer(cfg: Config)
    ensures (forall s :: Reachable(cfg, s) ==> Exclusive(s)) <==> cfg.killBound <= cfg.lease
  {
    if cfg.killBound <= cfg.lease {
      forall s | Reachable(cfg, s) ensures Exclusive(s) {
        ReachableInvariant(cfg, s);
      }
    } else {
      var s := OverlapReached(cfg, false);
      assert 0 in s.workers && 1 in s.workers;
      assert !Exclusive(s);
    }
  }

  /** The shipped limits leave exactly the grace: with the default lease a kill may come up to
      300 seconds after the hard timeout, and not one microsecond later. */
  lemma DeployedGraceIsExact(overrun: nat)
    ensures var cfg := DEPLOYED.(killBound := COLLECTION_WORKER_TIMEOUT + overrun);
            (forall s :: Reachable(cfg, s) ==> Exclusive(s)) <==> overrun <= WORKER_LEASE_GRACE
  {
    ExclusionExactlyWhenLeaseOutlivesContainer(DEPLOYED.(killBound := COLLECTION_WORKER_TIMEOUT + overrun));
  }

  // --------------------------------------------------------- success and its claim

  /** A superseded container that was never killed reports success for the newer claim. */
  lemma StaleSuccess(cfg: Config, github: bool) returns (s: State)
    requires cfg.killBound > cfg.lease && InTime(cfg, github)
    ensures Reachable(cfg, s) && s.succeededBy == Some((0, 1)) && s.row.attemptCount == 2
    ensures s.row.kind == ProbeKind(github)
  {
    var s0 := OverlapReached(cfg, github);
    var s1 := Apply(cfg, s0, Work(0, CollectReturn(NO_REPORT)));
    ReachableStep(cfg, s0, Work(0, CollectReturn(NO_REPORT)), s1);
    if cfg.hooked {
      var s2 := Apply(cfg, s1, Work(0, Hook(false)));
      ReachableStep(cfg, s1, Work(0, Hook(false)), s2);
      s := StaleFinish(cfg, s2, ProbeKind(github), NO_REPORT);
    } else {
      s := StaleFinish(cfg, s1, ProbeKind(github), NO_REPORT);
    }
  }

  lemma StaleFinish(cfg: Config, s: State, kind: CollectionKind, report: Report) returns (s': State)
    requires Reachable(cfg, s) && 0 in s.workers && s.workers[0].pc == PlainComplete(1, kind, report)
    requires s.row.state == Running && s.row.attemptCount == 2 && s.row.kind == kind
    ensures Reachable(cfg, s') && s'.succeededBy == Some((0, 1)) && s'.row.attemptCount == 2 && s'.row.kind == kind
  {
    s' := Apply(cfg, s, Work(0, Finish(Clean)));
    ReachableStep(cfg, s, Work(0, Finish(Clean)), s');
  }

  predicate SuccessFollowsHook(cfg: Config, s: State) {
    s.row.state == Succeeded && cfg.hooked ==>
      s.succeededBy.Some? && s.succeededBy.value in s.hookReturned && s.succeededBy.value !in s.hookRaised
  }

  /** No job is recorded succeeded unless the hook returned normally for the very claim that
      recorded it, whatever the timing; a claim whose hook raised never records success. */
  lemma SuccessImpliesFollowUp(cfg: Config, s: State)
    requires Reachable(cfg, s)
    ensures SuccessFollowsHook(cfg, s)
  {
    ReachableInvariant(cfg, s);
  }

  /** At most one container's hook ever ends under a generation, and no other container holds it. */
  predicate OneHook(s: State) {
    && (forall p, q :: p in s.hookReturned + s.hookRaised && q in s.hookReturned + s.hookRaised ==>
          (p.1 == q.1 ==> p == q))
    && (forall p, i :: p in s.hookReturned + s.hookRaised && i in s.workers ==>
          (HasGen(s.workers[i].pc) && s.workers[i].pc.gen == p.1 ==> i == p.0))
  }

  lemma OneHookUpdate(s: State, s': State, id: nat, ended: set<(nat, nat)>)
    requires OneHook(s) && Generations(s) && id in s.workers && id in s'.workers
    requires forall p :: p in s.hookReturned + s.hookRaised ==> p.1 <= s.row.attemptCount
    requires s'.workers == s.workers[id := s'.workers[id]]
    requires s'.hookReturned + s'.hookRaised == s.hookReturned + s.hookRaised + ended
    requires var pc, pc' := s.workers[id].pc, s'.workers[id].pc;
             && (HasGen(pc') ==> if HasGen(pc) then pc'.gen == pc.gen else pc'.gen == s.row.attemptCount + 1)
             && (ended == {} || (HasGen(pc) && ended == {(id, pc.gen)}))
    ensures OneHook(s')
  {
  }

  lemma OneHookStep(cfg: Config, s: State, l: Label)
    requires OneHook(s) && Generations(s) && Hooks(cfg, s) && Enabled(cfg, s, l)
    ensures OneHook(Apply(cfg, s, l))
  {
    if l.Work? {
      WorkShape(cfg, s, l.id, l.act);
      var s' := WorkStep(cfg, s, l.id, l.act);
      var ended := if l.act.Hook? then {(l.id, s.workers[l.id].pc.gen)} else {};
      assert s'.hookReturned + s'.hookRaised == s.hookReturned + s.hookRaised + ended;
      OneHookUpdate(s, s', l.id, ended);
    }
  }

  lemma {:induction false} OneHookRun(cfg: Config, s: State, ls: seq<Label>)
    requires OneHook(s) && Invariant(cfg, s) && Exec(cfg, s, ls).Some?
    ensures OneHook(Exec(cfg, s, ls).value)
    decreases |ls|
  {
    if ls != [] {
      OneHookStep(cfg, s, ls[0]);
      InvariantStep(cfg, s, ls[0]);
      OneHookRun(cfg, Apply(cfg, s, ls[0]), ls[1..]);
    }
  }

  /** A claim whose hook raised is never the one that records success, whatever the timing. While it
      is the latest claim and leases outlive containers, the job is queued again with a due time at
      most two hours off, ended without success, or under a lease that runs out. */
  lemma RaisingHookIsRetriedOrFails(cfg: Config, s: State, p: (nat, nat))
    requires Reachable(cfg, s) && cfg.hooked && p in s.hookRaised
    ensures s.succeededBy.Some? ==> s.succeededBy.value.1 != p.1
    ensures cfg.killBound <= cfg.lease && p.1 == s.row.attemptCount ==>
              || s.row.state == Terminated
              || (s.row.state == Queued && s.row.availableAt <= s.now + MAX_CONTINUATION_DELAY)
              || (s.row.state == Running && s.row.leaseExpiresAt.Some?
                  && s.row.leaseExpiresAt.value <= s.now + cfg.lease)
  {
    ReachableInvariant(cfg, s);
    var s0, ls :| Init(s0) && Exec(cfg, s0, ls) == Some(s);
    OneHookRun(cfg, s0, ls);
    if s.succeededBy.Some? {
      assert s.succeededBy.value in s.hookReturned;
    }
  }

  /** The claim that recorded success is the latest one in every run if and only if leases
      outlive containers. */
  lemma SuccessIsOfTheLatestClaimExactlyWhenTimed(cfg: Config)
    ensures (forall s :: Reachable(cfg, s) && s.succeededBy.Some? ==> s.succeededBy.value.1 == s.row.attemptCount)
            <==> cfg.killBound <= cfg.lease
  {
    if cfg.killBound <= cfg.lease {
      forall s | Reachable(cfg, s) && s.succeededBy.Some?
        ensures s.succeededBy.value.1 == s.row.attemptCount
      {
        ReachableInvariant(cfg, s);
      }
    } else {
      var s := StaleSuccess(cfg, false);
    }
  }

  // ---------------------------------------------- fencing without any timing assumption

  /** All that is left of this worker's program carries its generation. */
  predicate FencedPc(pc: Pc) {
    pc.Slice? || pc.SliceDefer? || pc.SliceDispatch? || pc.SliceCheck? || pc.SliceHook? || pc.SliceComplete?
    || pc.SliceError? || pc.SliceRetry? || pc.OuterCheck? || pc.OuterRetry?
  }

  /** From its claim on, a GitHub worker is fenced as long as its collector can be resumed. */
  predicate FencedFromClaim(cfg: Config, pc: Pc) {
    FencedPc(pc) || (pc.Claimed? && pc.kind == GithubSource && cfg.resumable)
  }

  predicate Superseded(cfg: Config, s: State, id: nat) {
    id in s.workers
    && (FencedFromClaim(cfg, s.workers[id].pc) ==> s.workers[id].pc.gen < s.row.attemptCount)
    && (FencedFromClaim(cfg, s.workers[id].pc) || s.workers[id].pc.Done? || s.workers[id].pc.Killed?)
  }

  /** No container of this id ever finds a collector without resumable collection. */
  predicate NeverPlain(ls: seq<Label>, id: nat) {
    forall k :: 0 <= k < |ls| && ls[k].Work? && ls[k].id == id ==> !PicksPlain(ls[k].act)
  }

  predicate PicksPlain(act: Act) { act.Lookup? && act.collector.PlainOnly? }

  /** Every step of `id` along the run leaves the row, the checkpoint history and the recorded
      success as they were. */
  predicate Inert(cfg: Config, s: State, ls: seq<Label>, id: nat)
    decreases |ls|
  {
    ls == [] || !Enabled(cfg, s, ls[0])
    || (var s' := Apply(cfg, s, ls[0]);
        && (ls[0].Work? && ls[0].id == id ==>
              s'.row == s.row && s'.writes == s.writes && s'.succeededBy == s.succeededBy)
        && Inert(cfg, s', ls[1..], id))
  }

  lemma SupersededStep(cfg: Config, s: State, l: Label, id: nat)
    requires Superseded(cfg, s, id) && Enabled(cfg, s, l)
    requires l.Work? && l.id == id ==> !PicksPlain(l.act)
    ensures Superseded(cfg, Apply(cfg, s, l), id)
    ensures var s' := Apply(cfg, s, l);
            l.Work? && l.id == id ==>
              s'.row == s.row && s'.writes == s.writes && s'.succeededBy == s.succeededBy
  {
    if l.Work? {
      WorkShape(cfg, s, l.id, l.act);
    }
  }

  /** Once superseded, a GitHub worker never again changes the stored job, however long it paused and
      wherever after its claim: for every later run in which it does not pick a collector without
      resumable collection, with no bound on container lifetimes. */
  lemma {:induction false} SupersededWorkerIsInert(cfg: Config, s: State, ls: seq<Label>, id: nat)
    requires Superseded(cfg, s, id) && NeverPlain(ls, id)
    ensures Inert(cfg, s, ls, id)
    decreases |ls|
  {
    if ls != [] && Enabled(cfg, s, ls[0]) {
      SupersededStep(cfg, s, ls[0], id);
      SupersededWorkerIsInert(cfg, Apply(cfg, s, ls[0]), ls[1..], id);
    }
  }

  /** The workers of a GitHub job whose collectors can all be resumed. */
  predicate AllFenced(cfg: Config, s: State) {
    && s.row.kind == GithubSource
    && (forall i :: i in s.workers && HasGen(s.workers[i].pc) ==> FencedFromClaim(cfg, s.workers[i].pc))
    && (s.succeededBy.Some? ==> s.succeededBy.value.1 == s.row.attemptCount && Terminal(s.row))
  }

  predicate NobodyPlain(ls: seq<Label>) {
    forall k :: 0 <= k < |ls| && ls[k].Work? ==> !PicksPlain(ls[k].act)
  }

  lemma AllFencedStep(cfg: Config, s: State, l: Label)
    requires AllFenced(cfg, s) && Enabled(cfg, s, l) && cfg.resumable && (l.Work? ==> !PicksPlain(l.act))
    ensures AllFenced(cfg, Apply(cfg, s, l))
  {
    if l.Work? {
      WorkShape(cfg, s, l.id, l.act);
      FencedWork(cfg, s, l.id, l.act);
    }
  }

  lemma FencedWork(cfg: Config, s: State, id: nat, act: Act)
    requires id in s.workers && Fits(s.workers[id].pc, act) && cfg.resumable && !PicksPlain(act)
    requires s.row.kind == GithubSource
    requires HasGen(s.workers[id].pc) ==> FencedFromClaim(cfg, s.workers[id].pc)
    ensures var s' := WorkStep(cfg, s, id, act);
            && (HasGen(s'.workers[id].pc) ==> FencedFromClaim(cfg, s'.workers[id].pc))
            && s'.row.kind == GithubSource
            && (s'.succeededBy != s.succeededBy ==>
                  s'.succeededBy.Some? && s'.succeededBy.value.1 == s'.row.attemptCount && Terminal(s'.row))
  {
  }

  lemma {:induction false} AllFencedRun(cfg: Config, s: State, ls: seq<Label>)
    requires AllFenced(cfg, s) && cfg.resumable && NobodyPlain(ls) && Exec(cfg, s, ls).Some?
    ensures AllFenced(cfg, Exec(cfg, s, ls).value)
    decreases |ls|
  {
    if ls != [] {
      AllFencedStep(cfg, s, ls[0]);
      AllFencedRun(cfg, Apply(cfg, s, ls[0]), ls[1..]);
    }
  }

  /** A GitHub job whose collectors can be resumed is only ever recorded succeeded by its latest claim,
      without any assumption on leases or container lifetimes. */
  lemma ResumableSuccessIsOfTheLatestClaim(cfg: Config, s0: State, ls: seq<Label>)
    requires Init(s0) && s0.row.kind == GithubSource && cfg.resumable && Exec(cfg, s0, ls).Some? && NobodyPlain(ls)
    ensures var s := Exec(cfg, s0, ls).value;
            s.succeededBy.Some? ==> s.succeededBy.value.1 == s.row.attemptCount
  {
    AllFencedRun(cfg, s0, ls);
  }

  /** Where the fence stops: a GitHub collector without resumable collection completes unfenced. Over
      all runs, with such collectors allowed, success is of the latest claim if and only if leases
      outlive containers. */
  lemma GithubSuccessBoundary(cfg: Config)
    requires ValidConfig(cfg)
    ensures (forall s :: Reachable(cfg, s) && s.row.kind == GithubSource && s.succeededBy.Some? ==>
               s.succeededBy.value.1 == s.row.attemptCount)
            <==> cfg.killBound <= cfg.lease
  {
    if cfg.killBound <= cfg.lease {
      forall s | Reachable(cfg, s) && s.row.kind == GithubSource && s.succeededBy.Some?
        ensures s.succeededBy.value.1 == s.row.attemptCount
      {
        ReachableInvariant(cfg, s);
      }
    } else {
      var s := StaleSuccess(cfg, true);
    }
  }

  /** A row that is over is never written again. */
  lemma {:induction false} TerminalRowIsFinal(cfg: Config, s: State, ls: seq<Label>)
    requires Terminal(s.row) && Exec(cfg, s, ls).Some?
    ensures Exec(cfg, s, ls).value.row == s.row
    decreases |ls|
  {
    if ls != [] {
      if ls[0].Work? { WorkShape(cfg, s, ls[0].id, ls[0].act); }
      TerminalRowIsFinal(cfg, Apply(cfg, s, ls[0]), ls[1..]);
    }
  }

  // ------------------------------------------------------------- checkpoint history

  /** The accepted saves, oldest first: the history without what deferrals wrote. */
  function Saves(ws: seq<Write>): seq<Write> {
    if ws == [] then []
    else if ws[|ws| - 1].deferral then Saves(ws[..|ws| - 1])
    else Saves(ws[..|ws| - 1]) + [ws[|ws| - 1]]
  }

  /** The stored checkpoint is the last save that took effect. */
  predicate SaveStored(s: State) {
    s.row.checkpoint == LastWritten(s.seed, Saves(s.writes))
  }

  /** The step is a deferral that takes effect, by a slice that does not hand over its own last save
      that took effect (or the checkpoint it claimed, before any). */
  predicate Overwrites(s: State, l: Label) {
    && l.Work? && l.id in s.workers && Fits(s.workers[l.id].pc, l.act)
    && l.act.Defer? && l.act.fault != LostBefore
    && ClaimCurrent(s.row, s.conn, s.workers[l.id].pc.gen, s.now)
    && !Faithful(s.workers[l.id].pc.progress)
  }

  /** One step keeps the last save stored exactly when it is not such a deferral. */
  lemma SaveStoredStep(cfg: Config, s: State, l: Label)
    requires Stored(s) && SaveStored(s) && Enabled(cfg, s, l)
    ensures SaveStored(Apply(cfg, s, l)) <==> !Overwrites(s, l)
  {
    if l.Work? {
      SaveStoredWork(cfg, s, l.id, l.act);
    }
  }

  /** A deferral is no save; a save is the last one. */
  lemma SavesGrow(seed: Checkpoint, ws: seq<Write>, w: Write)
    ensures LastWritten(seed, Saves(ws + [w])) == if w.deferral then LastWritten(seed, Saves(ws)) else w.value
  {
    assert (ws + [w])[..|ws|] == ws;
  }

  /** A write that would replace the stored checkpoint without being a save is an unfaithful deferral. */
  lemma WriteOverwrites(s: State, id: nat, act: Act)
    requires Stored(s) && id in s.workers && Fits(s.workers[id].pc, act)
    ensures var written := WriteOf(s, s.workers[id].pc, act);
            Overwrites(s, Work(id, act)) <==>
              written.Some? && written.value.deferral && written.value.value != s.row.checkpoint
  {
    assert InStep(s.row, s.workers[id].pc);
  }

  lemma SaveStoredWork(cfg: Config, s: State, id: nat, act: Act)
    requires Stored(s) && SaveStored(s) && id in s.workers && Fits(s.workers[id].pc, act)
    ensures SaveStored(WorkStep(cfg, s, id, act)) <==> !Overwrites(s, Work(id, act))
  {
    RowCheckpoint(cfg, s, id, act);
    WriteOverwrites(s, id, act);
    var written := WriteOf(s, s.workers[id].pc, act);
    if written.Some? { SavesGrow(s.seed, s.writes, written.value); }
  }

  lemma RowCheckpoint(cfg: Config, s: State, id: nat, act: Act)
    requires id in s.workers && Fits(s.workers[id].pc, act)
    ensures var written := WriteOf(s, s.workers[id].pc, act);
            var s' := WorkStep(cfg, s, id, act);
            && s'.row.checkpoint == (if written.Some? then written.value.value else s.row.checkpoint)
            && s'.writes == (if written.Some? then s.writes + [written.value] else s.writes)
            && s'.seed == s.seed
  {
  }

  /** At every moment of the run the last save is what is stored. */
  predicate AlwaysSaved(cfg: Config, s: State, ls: seq<Label>)
    decreases |ls|
  {
    SaveStored(s) && (ls == [] || !Enabled(cfg, s, ls[0]) || AlwaysSaved(cfg, Apply(cfg, s, ls[0]), ls[1..]))
  }

  predicate NeverOverwrites(cfg: Config, s: State, ls: seq<Label>)
    decreases |ls|
  {
    ls == [] || !Enabled(cfg, s, ls[0])
    || (!Overwrites(s, ls[0]) && NeverOverwrites(cfg, Apply(cfg, s, ls[0]), ls[1..]))
  }

  lemma {:induction false} AlwaysSavedExactly(cfg: Config, s: State, ls: seq<Label>)
    requires Invariant(cfg, s) && SaveStored(s)
    ensures AlwaysSaved(cfg, s, ls) <==> NeverOverwrites(cfg, s, ls)
    decreases |ls|
  {
    if ls != [] && Enabled(cfg, s, ls[0]) {
      SaveStoredStep(cfg, s, ls[0]);
      if !Overwrites(s, ls[0]) {
        InvariantStep(cfg, s, ls[0]);
        AlwaysSavedExactly(cfg, Apply(cfg, s, ls[0]), ls[1..]);
      } else {
        assert !SaveStored(Apply(cfg, s, ls[0]));
      }
    }
  }

  /** Checkpoint writes take effect in generation order, and the row holds the last one. It holds the
      last accepted save at every moment of a run if and only if no deferral of the run takes effect
      for a slice whose own saves and whose dictionary have drifted from what it hands over. */
  lemma CheckpointHistory(cfg: Config, s0: State, ls: seq<Label>)
    requires Init(s0) && Exec(cfg, s0, ls).Some?
    ensures var s := Exec(cfg, s0, ls).value;
            Sorted(s.writes) && s.row.checkpoint == LastWritten(s.seed, s.writes)
    ensures AlwaysSaved(cfg, s0, ls) <==> NeverOverwrites(cfg, s0, ls)
  {
    InvariantRun(cfg, s0, ls);
    AlwaysSavedExactly(cfg, s0, ls);
  }

  // ------------------------------------------------- which slices hand over faithfully

  /** A slice returns from its collector with no save raised since its last accepted one, and with an
      accepted save or an untouched dictionary. What raised, was refused or was changed before the
      last accepted save does not matter, nor what a slice does that does not return. */
  predicate Careful(s: State, l: Label) {
    l.Work? && l.act.CollectReturn? && l.id in s.workers && s.workers[l.id].pc.Slice? ==>
      var p := s.workers[l.id].pc.progress;
      !p.raised && (p.acked.Some? || p.passed == p.start)
  }

  predicate CarefulRun(cfg: Config, s: State, ls: seq<Label>)
    decreases |ls|
  {
    ls == [] || !Enabled(cfg, s, ls[0])
    || (Careful(s, ls[0]) && CarefulRun(cfg, Apply(cfg, s, ls[0]), ls[1..]))
  }

  predicate Accounted(pc: Pc) {
    && (pc.Slice? && !pc.progress.raised ==> pc.progress.durable == pc.progress.acked)
    && (pc.SliceDefer? ==> Faithful(pc.progress))
  }

  predicate AllAccounted(s: State) { forall i :: i in s.workers ==> Accounted(s.workers[i].pc) }

  lemma AccountedWork(cfg: Config, s: State, id: nat, act: Act)
    requires id in s.workers && Fits(s.workers[id].pc, act) && Accounted(s.workers[id].pc)
    requires Careful(s, Work(id, act))
    ensures Accounted(WorkStep(cfg, s, id, act).workers[id].pc)
    ensures !Overwrites(s, Work(id, act))
  {
  }

  lemma {:induction false} CarefulRunsNeverOverwrite(cfg: Config, s: State, ls: seq<Label>)
    requires AllAccounted(s) && CarefulRun(cfg, s, ls)
    ensures NeverOverwrites(cfg, s, ls)
    decreases |ls|
  {
    if ls != [] && Enabled(cfg, s, ls[0]) {
      if ls[0].Work? { AccountedWork(cfg, s, ls[0].id, ls[0].act); }
      CarefulRunsNeverOverwrite(cfg, Apply(cfg, s, ls[0]), ls[1..]);
    }
  }

  /** A collector that works on a copy of the dictionary it is given and lets every exception of a save
      end it: after a save raised it does not return. */
  predicate CopiesAndPropagates(s: State, l: Label) {
    l.Work? && l.id in s.workers && s.workers[l.id].pc.Slice? ==>
      && !l.act.Mutate?
      && (l.act.CollectReturn? ==> !s.workers[l.id].pc.progress.raised)
  }

  predicate CopyingRun(cfg: Config, s: State, ls: seq<Label>)
    decreases |ls|
  {
    ls == [] || !Enabled(cfg, s, ls[0])
    || (CopiesAndPropagates(s, ls[0]) && CopyingRun(cfg, Apply(cfg, s, ls[0]), ls[1..]))
  }

  predicate Untouched(s: State) {
    forall i :: i in s.workers && s.workers[i].pc.Slice? ==>
      s.workers[i].pc.progress.passed == s.workers[i].pc.progress.start
  }

  lemma {:induction false} CopyingRunsAreCareful(cfg: Config, s: State, ls: seq<Label>)
    requires Untouched(s) && CopyingRun(cfg, s, ls)
    ensures CarefulRun(cfg, s, ls)
    decreases |ls|
  {
    if ls != [] && Enabled(cfg, s, ls[0]) {
      CopyingRunsAreCareful(cfg, Apply(cfg, s, ls[0]), ls[1..]);
    }
  }

  /** With collectors that copy and propagate, as the GitHub collector does, the last accepted save is
      stored at every moment of every run, saves that committed without being acknowledged included. */
  lemma CopyingCollectorsKeepTheLastSave(cfg: Config, s0: State, ls: seq<Label>)
    requires Init(s0) && CopyingRun(cfg, s0, ls)
    ensures AlwaysSaved(cfg, s0, ls)
  {
    CopyingRunsAreCareful(cfg, s0, ls);
    CarefulRunsNeverOverwrite(cfg, s0, ls);
    AlwaysSavedExactly(cfg, s0, ls);
  }

  /** What a deferral that takes effect stores is what was stored, exactly when the slice is faithful;
      one that is refused stores nothing. */
  lemma DeferralHandsBackTheStoredCheckpoint(cfg: Config, s: State, id: nat)
    requires Reachable(cfg, s) && id in s.workers && s.workers[id].pc.SliceDefer?
    ensures var (row, answer) := Effect(cfg, s, s.workers[id].pc, Defer(Clean));
            if answer == Yes then row.checkpoint == s.row.checkpoint <==> Faithful(s.workers[id].pc.progress)
            else row == s.row
  {
    ReachableInvariant(cfg, s);
    assert InStep(s.row, s.workers[id].pc);
  }

  const PENDING := Report(0, 0, 0, true, 0)

  /** Worker 0 in a slice of the fresh GitHub job. */
  function SliceState(cfg: Config, row: Job, pc: Pc, writes: seq<Write>): State {
    ProbeState(cfg, true, pc).(row := row, writes := writes)
  }

  lemma SliceReached(cfg: Config)
    requires cfg.resumable
    ensures Reachable(cfg, Opening(cfg))
  {
    ProbeClaims(cfg, true);
    var s2 := ProbeState(cfg, true, Claimed(1, GithubSource, EMPTY));
    assert Apply(cfg, s2, Work(0, Lookup(Clean, Resumable))) == Opening(cfg);
    ReachableStep(cfg, s2, Work(0, Lookup(Clean, Resumable)), Opening(cfg));
  }

  predicate Slip(act: Act) { act.Mutate? || (act.Save? && act.fault == LostAfter) }

  /** The slice after the slip. */
  function Slipped(slip: Act): Progress
    requires Slip(slip)
  {
    if slip.Mutate? then Progress(EMPTY, slip.value, None, None, false)
    else Progress(EMPTY, EMPTY, None, Some(slip.value), true)
  }

  /** The slice before the slip. */
  function Opening(cfg: Config): State {
    SliceState(cfg, ProbeRow(cfg, true), Slice(1, Progress(EMPTY, EMPTY, None, None, false)), [])
  }

  lemma SliceChanges(cfg: Config, value: Checkpoint)
    ensures Apply(cfg, Opening(cfg), Work(0, Mutate(value))) ==
            SliceState(cfg, ProbeRow(cfg, true), Slice(1, Slipped(Mutate(value))), [])
  {
  }

  lemma SliceLosesAnAnswer(cfg: Config, value: Checkpoint)
    requires ValidConfig(cfg)
    ensures Apply(cfg, Opening(cfg), Work(0, Save(value, LostAfter))) ==
            SliceState(cfg, SaveRow(ProbeRow(cfg, true), value), Slice(1, Slipped(Save(value, LostAfter))),
                       [Write(1, value, false)])
  {
    assert ClaimCurrent(ProbeRow(cfg, true), ProbeConnection(true), 1, 0);
  }

  lemma SliceDefers(cfg: Config, row: Job, progress: Progress, writes: seq<Write>) returns (s: State)
    requires ClaimCurrent(row, ProbeConnection(true), 1, 0)
    ensures Apply(cfg, SliceState(cfg, row, Slice(1, progress), writes), Work(0, CollectReturn(PENDING))) ==
            SliceState(cfg, row, SliceDefer(1, progress, PENDING), writes)
    ensures Apply(cfg, SliceState(cfg, row, SliceDefer(1, progress, PENDING), writes), Work(0, Defer(Clean))) == s
    ensures s.row.checkpoint == HandedOver(progress) && s.writes == writes + [Write(1, HandedOver(progress), true)]
    ensures s.seed == EMPTY
  {
    s := Apply(cfg, SliceState(cfg, row, SliceDefer(1, progress, PENDING), writes), Work(0, Defer(Clean)));
  }

  lemma DeferReached(cfg: Config, row: Job, progress: Progress, writes: seq<Write>) returns (s: State)
    requires ClaimCurrent(row, ProbeConnection(true), 1, 0)
    requires Reachable(cfg, SliceState(cfg, row, Slice(1, progress), writes))
    ensures Reachable(cfg, s) && s.seed == EMPTY
    ensures s.row.checkpoint == HandedOver(progress) && s.writes == writes + [Write(1, HandedOver(progress), true)]
  {
    var s4 := SliceState(cfg, row, Slice(1, progress), writes);
    var s5 := SliceState(cfg, row, SliceDefer(1, progress, PENDING), writes);
    s := SliceDefers(cfg, row, progress, writes);
    ReachableStep(cfg, s4, Work(0, CollectReturn(PENDING)), s5);
    ReachableStep(cfg, s5, Work(0, Defer(Clean)), s);
  }

  /** A slice takes the step `slip` and then asks to be resumed. */
  lemma SlipReached(cfg: Config, slip: Act) returns (s: State)
    requires ValidConfig(cfg) && cfg.resumable && Slip(slip)
    ensures Reachable(cfg, s) && s.seed == EMPTY
    ensures slip.Mutate? ==> s.row.checkpoint == slip.value && s.writes == [Write(1, slip.value, true)]
    ensures slip.Save? ==>
              s.row.checkpoint == EMPTY && s.writes == [Write(1, slip.value, false), Write(1, EMPTY, true)]
  {
    var row := if slip.Mutate? then ProbeRow(cfg, true) else SaveRow(ProbeRow(cfg, true), slip.value);
    var writes := if slip.Mutate? then [] else [Write(1, slip.value, false)];
    SliceReached(cfg);
    if slip.Mutate? { SliceChanges(cfg, slip.value); } else { SliceLosesAnAnswer(cfg, slip.value); }
    ReachableStep(cfg, Opening(cfg), Work(0, slip), SliceState(cfg, row, Slice(1, Slipped(slip)), writes));
    s := DeferReached(cfg, row, Slipped(slip), writes);
  }

  /** Both ways to drift happen: a collector that changes the dictionary it was given and saves nothing
      gets that change stored by the deferral; and after a save that committed but raised, a collector
      that returns all the same gets the older checkpoint put back. */
  lemma DriftedDeferralsRewriteTheCheckpoint(cfg: Config, value: Checkpoint)
    requires ValidConfig(cfg) && cfg.resumable && value != EMPTY
    ensures exists s :: Reachable(cfg, s) && s.seed == EMPTY && Saves(s.writes) == [] && s.row.checkpoint == value
    ensures exists s :: Reachable(cfg, s) && LastWritten(s.seed, Saves(s.writes)) == value && s.row.checkpoint == EMPTY
  {
    var s := SlipReached(cfg, Mutate(value));
    assert Saves(s.writes) == [] by { assert s.writes[..0] == []; }
    var r := SlipReached(cfg, Save(value, LostAfter));
    assert Saves(r.writes) == [r.writes[0]] by {
      assert r.writes[..1] == [r.writes[0]] && r.writes[..1][..0] == [];
    }
  }

  // ------------------------------------------------------------------ no stranding

  function Longest(cfg: Config): nat {
    if cfg.lease < MAX_CONTINUATION_DELAY then MAX_CONTINUATION_DELAY else cfg.lease
  }

  /** In whatever state the runs leave a GitHub row that is not over, more than two hours (or one lease)
      later it is due or can no longer run. */
  lemma OverdueIsSelected(cfg: Config, s: State, conn: Connection, t: int)
    requires Reachable(cfg, s) && s.row.kind == GithubSource && t > s.now + Longest(cfg) && Active(s.row)
    ensures forall id, updatedAt ::
              Unrunnable(Row(id, s.row, conn, updatedAt), t) || Due(s.row, conn, t)
  {
    ReachableInvariant(cfg, s);
  }

  /** The row was left by some run of its own, long enough ago. */
  ghost predicate LeftBy(cfg: Config, row: Row, t: int) {
    row.job.kind == GithubSource && exists s :: Reachable(cfg, s) && s.row == row.job && t > s.now + Longest(cfg)
  }

  /** Committed GitHub work is never stranded: over any number of rows that runs left long enough ago,
      one recovery call lists or ends a row exactly when it was over already or fewer than `limit` rows
      of its sort come before it; so with at most `limit` rows it lists or ends them all. */
  lemma NoWorkIsStranded(cfg: Config, rows: seq<Row>, t: int, limit: nat, k: nat)
    requires UniqueIds(rows) && k < |rows| && LeftBy(cfg, rows[k], t)
    ensures Reached(rows, t, limit, k) <==>
              Terminal(rows[k].job)
              || |Ahead(if Unrunnable(rows[k], t) then Ending else Listing, rows, t, rows[k])| < limit
    ensures |rows| <= limit ==> Reached(rows, t, limit, k)
  {
    var row := rows[k];
    var s :| Reachable(cfg, s) && s.row == row.job && t > s.now + Longest(cfg);
    if Active(row.job) {
      OverdueIsSelected(cfg, s, row.conn, t);
      assert Unrunnable(Row(row.id, s.row, row.conn, row.updatedAt), t) || Due(row.job, row.conn, t);
      assert row == Row(row.id, s.row, row.conn, row.updatedAt);
    }
    ReachedExactlyWithinTheLimit(rows, t, limit, k);
    FewAhead(if Unrunnable(row, t) then Ending else Listing, rows, t, k);
  }

  lemma FewAhead(sel: Pick, rows: seq<Row>, t: int, k: nat)
    requires UniqueIds(rows) && k < |rows|
    ensures |Ahead(sel, rows, t, rows[k])| < |rows|
  {
    MembersCount(rows);
    assert Ahead(sel, rows, t, rows[k]) <= Members(rows) - {rows[k]};
    Smaller(Ahead(sel, rows, t, rows[k]), Members(rows) - {rows[k]});
  }

  lemma Smaller(a: set<Row>, b: set<Row>)
    requires a <= b
    ensures |a| <= |b|
  {
    assert b == a + (b - a);
  }

  /** On each of its rows the recovery call is the machine's step, or leaves the row for a later call
      because of its limit. */
  lemma RecoverIsTheCall(cfg: Config, s: State, rows: seq<Row>, limit: nat, k: nat)
    requires UniqueIds(rows) && k < |rows| && rows[k].job == s.row && rows[k].conn == s.conn
    ensures AfterEnding(rows, s.now, limit)[k].job ==
            if Unrunnable(rows[k], s.now) && |Ahead(Ending, rows, s.now, rows[k])| >= limit then s.row
            else Apply(cfg, s, Label.Recover).row
  {
    EndedIsRecovered(rows[k], s.now);
    CutExactlyAtTheLimit(Ending, rows, s.now, limit, rows[k]);
  }

  /** What the recovery call lists is not listed in vain: a claim at that moment takes the row for
      a new generation, or ends it for good after three expired leases. */
  lemma ListedWorkIsClaimable(row: Job, conn: Connection, t: int, lease: nat)
    requires Due(row, conn, t)
    ensures var row' := ClaimRow(row, conn, t, lease);
            || (row'.state == Running && row'.attemptCount == row.attemptCount + 1
                && row'.leaseExpiresAt == Some(t + lease) && row'.checkpoint == row.checkpoint)
            || (row'.state == Terminated && row.retryCount >= 2)
  {
  }

  // ------------------------------------------------------------ bounded attempts

  predicate Bounded(cfg: Config, s: State) {
    && (forall i :: i in s.workers ==>
          s.workers[i].claims <= cfg.maxAttempts && (s.workers[i].pc.Idle? ==> s.workers[i].claims < cfg.maxAttempts))
    && s.row.retryCount <= (if cfg.maxAttempts < 3 then 3 else cfg.maxAttempts)
    && (Active(s.row) ==> s.row.retryCount <= (if cfg.maxAttempts < 3 then 2 else cfg.maxAttempts - 1))
  }

  lemma BoundedStep(cfg: Config, s: State, l: Label)
    requires Bounded(cfg, s) && cfg.maxAttempts >= 1 && Enabled(cfg, s, l)
    ensures Bounded(cfg, Apply(cfg, s, l))
  {
    if l.Work? { BoundedWork(cfg, s, l.id, l.act); }
  }

  lemma BoundedWork(cfg: Config, s: State, id: nat, act: Act)
    requires Bounded(cfg, s) && cfg.maxAttempts >= 1 && id in s.workers && Fits(s.workers[id].pc, act)
    ensures Bounded(cfg, WorkStep(cfg, s, id, act))
  {
    var s' := WorkStep(cfg, s, id, act);
    var w' := s'.workers[id];
    assert w'.claims <= cfg.maxAttempts && (w'.pc.Idle? ==> w'.claims < cfg.maxAttempts);
    assert s'.row.retryCount <= s.row.retryCount || Active(s.row);
  }

  lemma {:induction false} BoundedRun(cfg: Config, s: State, ls: seq<Label>)
    requires Bounded(cfg, s) && cfg.maxAttempts >= 1 && Exec(cfg, s, ls).Some?
    ensures Bounded(cfg, Exec(cfg, s, ls).value)
    decreases |ls|
  {
    if ls != [] {
      BoundedStep(cfg, s, ls[0]);
      BoundedRun(cfg, Apply(cfg, s, ls[0]), ls[1..]);
    }
  }

  /** An invocation makes at most `max_attempts` claims, and a row that may still run has failed
      or lost its lease fewer times than the bound since its last progress. */
  lemma AttemptsAreBounded(cfg: Config, s: State)
    requires ValidConfig(cfg) && Reachable(cfg, s)
    ensures Bounded(cfg, s)
  {
    var s0, ls :| Init(s0) && Exec(cfg, s0, ls) == Some(s);
    BoundedRun(cfg, s0, ls);
  }

  /** Step `k` of the run raises the number of completed repositories the row records. */
  predicate Progresses(cfg: Config, s: State, ls: seq<Label>, k: nat)
    requires k < |ls|
  {
    var before, after := Exec(cfg, s, ls[..k]), Exec(cfg, s, ls[..k + 1]);
    before.Some? && after.Some? && after.value.row.result.completed > before.value.row.result.completed
  }

  lemma RetriesStep(cfg: Config, s: State, l: Label)
    requires Enabled(cfg, s, l)
    ensures var s' := Apply(cfg, s, l);
            s'.row.retryCount < s.row.retryCount ==>
              s'.row.retryCount == 0 && s'.row.result.completed > s.row.result.completed
  {
  }

  lemma ProgressesLater(cfg: Config, s: State, ls: seq<Label>, k: nat)
    requires ls != [] && Enabled(cfg, s, ls[0]) && k < |ls[1..]| && Progresses(cfg, Apply(cfg, s, ls[0]), ls[1..], k)
    ensures Progresses(cfg, s, ls, k + 1)
  {
    assert ls[..k + 1][1..] == ls[1..][..k] && ls[..k + 2][1..] == ls[1..][..k + 1];
  }

  /** Failures are forgiven only for progress: in a run that ends with fewer retries counted than it
      began with, some step recorded more completed repositories than were recorded before it. */
  lemma {:induction false} RetriesFallOnlyByProgress(cfg: Config, s: State, ls: seq<Label>)
    requires Exec(cfg, s, ls).Some? && Exec(cfg, s, ls).value.row.retryCount < s.row.retryCount
    ensures exists k: nat :: k < |ls| && Progresses(cfg, s, ls, k)
    decreases |ls|
  {
    var s' := Apply(cfg, s, ls[0]);
    if s'.row.retryCount < s.row.retryCount {
      RetriesStep(cfg, s, ls[0]);
      assert ls[..1][1..] == [] && ls[..0] == [];
      assert Progresses(cfg, s, ls, 0);
    } else {
      RetriesFallOnlyByProgress(cfg, s', ls[1..]);
      var k: nat :| k < |ls[1..]| && Progresses(cfg, s', ls[1..], k);
      ProgressesLater(cfg, s, ls, k);
    }
  }

  /** An invocation that entered a slice, or a slice's handler, never claims again. */
  lemma {:induction false} OneSlicePerInvocation(cfg: Config, s: State, ls: seq<Label>, id: nat)
    requires id in s.workers && (FencedPc(s.workers[id].pc) || s.workers[id].pc.Done? || s.workers[id].pc.Killed?)
    requires Exec(cfg, s, ls).Some?
    ensures var s' := Exec(cfg, s, ls).value; id in s'.workers && s'.workers[id].claims == s.workers[id].claims
    decreases |ls|
  {
    if ls != [] {
      var s' := Apply(cfg, s, ls[0]);
      assert id in s'.workers && s'.workers[id].claims == s.workers[id].claims
             && (FencedPc(s'.workers[id].pc) || s'.workers[id].pc.Done? || s'.workers[id].pc.Killed?);
      OneSlicePerInvocation(cfg, s', ls[1..], id);
    }
  }
}
