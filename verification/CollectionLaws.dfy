/** What the steps of the collection machine do to the row, said outright: which steps end, requeue,
    grant or complete a job, when it is due again, and what a worker left alone does from each of its
    branching points. Nothing here speaks of the row table's own verdicts. */
module CollectionLaws {
  import opened Options
  import opened WorkerLimits
  import opened CollectionRows
  import opened CollectionMachine

  // ----------------------------------------------------------- how a job moves, exactly

  const HOUR := 3600 * SECOND

  /** A GitHub job can still run: its connection is an active GitHub one and it is under 48 hours old. */
  predicate CanRun(s: State) {
    s.conn.provider == Github && s.conn.active && s.row.createdAt > s.now - 48 * HOUR
  }

  predicate Overran(s: State) {
    s.row.state == Running && s.row.leaseExpiresAt.Some? && s.row.leaseExpiresAt.value < s.now
  }

  /** The call reached the store. */
  predicate Arrived(fault: Fault) { fault == Clean || fault == LostAfter }

  /** The call reached the store while the worker's claim was current. */
  predicate Accepted(s: State, l: Label, fault: Fault)
    requires l.Work? && l.id in s.workers && HasGeneration(s.workers[l.id].pc)
  {
    Arrived(fault) && ClaimCurrent(s.row, s.conn, s.workers[l.id].pc.gen, s.now)
  }

  predicate HasGeneration(pc: Pc) { !pc.Idle? && !pc.Done? && !pc.Killed? }

  predicate EndedBy(cfg: Config, s: State, l: Label)
    requires Enabled(cfg, s, l)
  {
    match l
    case FailDispatch => true
    case Expire =>
      s.row.kind != GithubSource
      && (Overran(s) || (s.row.state == Queued && s.row.createdAt < s.now - 30 * 60 * SECOND))
    case Recover => s.row.kind == GithubSource && !CanRun(s)
    case Work(_, Claim(fault)) =>
      Arrived(fault) && s.row.kind == GithubSource && (!CanRun(s) || (Overran(s) && s.row.retryCount >= 2))
    case Work(_, Retry(fault)) => Accepted(s, l, fault) && s.row.retryCount + 1 >= cfg.maxAttempts
    case Work(_, Record(fault)) => Arrived(fault) && s.row.state == Running && s.row.attemptCount >= cfg.maxAttempts
    case _ => false
  }

  /** A job that may still run ends without success exactly by a failed dispatch, by going stale, by
      being found unable to run, after a third expired lease, or by its last allowed failure. */
  lemma EndsExactly(cfg: Config, s: State, l: Label)
    requires Active(s.row) && Enabled(cfg, s, l)
    ensures Apply(cfg, s, l).row.state == Terminated <==> EndedBy(cfg, s, l)
  {
  }

  predicate RequeuedBy(cfg: Config, s: State, l: Label)
    requires Enabled(cfg, s, l)
  {
    match l
    case Work(_, Defer(fault)) => Accepted(s, l, fault)
    case Work(_, Retry(fault)) => Accepted(s, l, fault) && s.row.retryCount + 1 < cfg.maxAttempts
    case Work(_, Record(fault)) => Arrived(fault) && s.row.attemptCount < cfg.maxAttempts
    case _ => false
  }

  /** A running job is queued again exactly by an accepted deferral or by a failure below the bound. */
  lemma RequeuesExactly(cfg: Config, s: State, l: Label)
    requires s.row.state == Running && Enabled(cfg, s, l)
    ensures Apply(cfg, s, l).row.state == Queued <==> RequeuedBy(cfg, s, l)
  {
  }

  predicate GrantedBy(cfg: Config, s: State, l: Label)
    requires Enabled(cfg, s, l)
  {
    && l.Work? && l.act.Claim? && Arrived(l.act.fault)
    && s.row.availableAt <= s.now && (s.row.state == Queued || Overran(s))
    && (s.row.kind == GithubSource ==> CanRun(s) && (Overran(s) ==> s.row.retryCount < 2))
  }

  /** A claim takes the job exactly when it is due, queued or overrun, and able to run. It starts the
      next generation under a full lease and counts an overrun GitHub lease as a retry. */
  lemma GrantsExactly(cfg: Config, s: State, l: Label)
    requires Enabled(cfg, s, l)
    ensures var row' := Apply(cfg, s, l).row;
            && (row'.attemptCount != s.row.attemptCount <==> GrantedBy(cfg, s, l))
            && (GrantedBy(cfg, s, l) ==>
                  row' == s.row.(state := Running, attemptCount := s.row.attemptCount + 1,
                                 retryCount := if s.row.kind == GithubSource && s.row.state == Running
                                               then s.row.retryCount + 1 else s.row.retryCount,
                                 leaseExpiresAt := Some(s.now + cfg.lease)))
  {
  }

  predicate CompletedBy(cfg: Config, s: State, l: Label)
    requires Enabled(cfg, s, l)
  {
    && l.Work? && l.act.Finish?
    && (if s.workers[l.id].pc.SliceComplete? then Accepted(s, l, l.act.fault)
        else Arrived(l.act.fault) && s.row.state == Running)
  }

  /** A job succeeds exactly by a completion: of a slice under its current claim, or outside a slice
      while the job runs. It then holds the collector's report. */
  lemma CompletesExactly(cfg: Config, s: State, l: Label)
    requires Active(s.row) && Enabled(cfg, s, l)
    ensures var row' := Apply(cfg, s, l).row;
            && (row'.state == Succeeded <==> CompletedBy(cfg, s, l))
            && (CompletedBy(cfg, s, l) ==> row'.result == s.workers[l.id].pc.report && row'.leaseExpiresAt == None)
  {
  }

  /** A claim of a GitHub job is current for its own generation, while its lease lasts, the job is under
      48 hours old and the connection is an active GitHub one; and at no other time. */
  lemma ClaimHoldsExactly(cfg: Config, s: State, l: Label, conn: Connection, generation: nat, t: int)
    requires Enabled(cfg, s, l) && GrantedBy(cfg, s, l) && s.row.kind == GithubSource
    ensures ClaimCurrent(Apply(cfg, s, l).row, conn, generation, t) <==>
              && generation == s.row.attemptCount + 1
              && t < s.now + cfg.lease && s.row.createdAt > t - 48 * HOUR
              && conn.provider == Github && conn.active
  {
    GrantsExactly(cfg, s, l);
  }

  /** The calls that carry a generation. */
  predicate Guarded(s: State, l: Label) {
    && l.Work? && l.id in s.workers && HasGeneration(s.workers[l.id].pc)
    && (l.act.Save? || l.act.Defer? || l.act.Retry? || l.act.Check?
        || (l.act.Finish? && s.workers[l.id].pc.SliceComplete?))
  }

  function FaultOf(act: Act): Fault
    requires act.Save? || act.Defer? || act.Retry? || act.Check? || act.Finish?
  {
    match act
    case Save(_, fault) => fault
    case Defer(fault) => fault
    case Retry(fault) => fault
    case Check(fault) => fault
    case Finish(fault) => fault
  }

  /** A guarded call that is not accepted changes neither the row nor the history of its checkpoint. */
  lemma RefusedChangesNothing(cfg: Config, s: State, l: Label)
    requires Enabled(cfg, s, l) && Guarded(s, l) && !Accepted(s, l, FaultOf(l.act))
    ensures var s' := Apply(cfg, s, l); s'.row == s.row && s'.writes == s.writes && s'.succeededBy == s.succeededBy
  {
  }

  /** Nothing but a claim, a guarded call, a completion and the recording of a failure ever changes the row
      from within a worker, and no worker's step touches another worker, the clock or the connection. */
  lemma WorkerTouchesItsOwn(cfg: Config, s: State, l: Label)
    requires Enabled(cfg, s, l) && l.Work?
    ensures var s' := Apply(cfg, s, l);
            && s'.now == s.now && s'.conn == s.conn && s'.workers.Keys == s.workers.Keys
            && (forall other :: other in s.workers && other != l.id ==> s'.workers[other] == s.workers[other])
            && (!l.act.Claim? && !l.act.Save? && !l.act.Defer? && !l.act.Retry? && !l.act.Finish? && !l.act.Record? ==>
                  s'.row == s.row && s'.writes == s.writes)
  {
  }

  /** A lost dispatch, the expiry of stale rows and the recovery either end the row, dropping its lease, or
      leave it as it is. */
  lemma OutsideStepsEndOrLeave(cfg: Config, s: State, l: Label)
    requires Enabled(cfg, s, l) && !l.Work?
    ensures var s' := Apply(cfg, s, l);
            && s'.row == (if Active(s.row) && EndedBy(cfg, s, l)
                          then s.row.(state := Terminated, leaseExpiresAt := None) else s.row)
            && s'.writes == s.writes
  {
  }

  // ------------------------------------------------------------- when it is due again

  /** The wish of the collector, cut to at most two hours. */
  function Wait(report: Report): int {
    if report.retryAfterSeconds <= 0 then 0
    else if report.retryAfterSeconds <= 7200 then report.retryAfterSeconds * SECOND
    else 7200 * SECOND
  }

  /** The job is neither listed nor granted before `due`. */
  ghost predicate Sleeps(row: Job, due: int) {
    && row.availableAt == due
    && (forall conn, t: int :: t < due ==> !Due(row, conn, t))
    && (forall conn, t: int, lease: nat :: t < due ==> ClaimRow(row, conn, t, lease).attemptCount == row.attemptCount)
  }

  /** An accepted deferral stores what the slice hands over and its report, counts a continuation but no
      retry, and puts the job to sleep for exactly the wait. */
  lemma DeferralSleeps(cfg: Config, s: State, l: Label)
    requires Enabled(cfg, s, l) && l.Work? && l.act.Defer? && Accepted(s, l, l.act.fault)
    ensures var pc, row' := s.workers[l.id].pc, Apply(cfg, s, l).row;
            && row'.checkpoint == HandedOver(pc.progress) && row'.result == pc.report
            && row'.continuationCount == s.row.continuationCount + 1 && row'.retryCount == s.row.retryCount
            && row'.leaseExpiresAt == None && Sleeps(row', s.now + Wait(pc.report))
  {
  }

  /** An accepted retry counts one, keeps checkpoint and report, and lets the job sleep for 30 seconds. */
  lemma RetrySleeps(cfg: Config, s: State, l: Label)
    requires Enabled(cfg, s, l) && l.Work? && l.act.Retry? && Accepted(s, l, l.act.fault)
    ensures var row' := Apply(cfg, s, l).row;
            && row'.retryCount == s.row.retryCount + 1 && row'.leaseExpiresAt == None
            && row'.checkpoint == s.row.checkpoint && row'.result == s.row.result
            && Sleeps(row', s.now + 30 * SECOND)
  {
  }

  // ------------------------------------------------------------------ what a save counts

  function With(c: Checkpoint, name: string, outcome: RepositoryOutcome, detail: string): Checkpoint {
    Checkpoint(c.repositories[name := (outcome, detail)])
  }

  function One(counted: bool): nat { if counted then 1 else 0 }

  lemma EmptyCounts(job: Job)
    ensures var r := SaveRow(job, EMPTY).result; r.completed == 0 && r.failed == 0 && r.partial == 0
  {
    assert NamesWith(EMPTY, Failed) == {} && NamesWith(EMPTY, Partial) == {};
    CompletedAddsUp(EMPTY);
    assert NamesWith(EMPTY, Complete) == {};
  }

  lemma OneMoreName(c: Checkpoint, name: string, outcome: RepositoryOutcome, detail: string, counted: RepositoryOutcome)
    requires name !in c.repositories
    ensures |NamesWith(With(c, name, outcome, detail), counted)| == |NamesWith(c, counted)| + One(outcome == counted)
  {
    assert NamesWith(With(c, name, outcome, detail), counted) ==
           NamesWith(c, counted) + (if outcome == counted then {name} else {});
  }

  /** One more repository in a saved checkpoint adds one to the count of its outcome and, unless it is
      unfinished, to the completed count. */
  lemma EachRepositoryCountsOnce(job: Job, c: Checkpoint, name: string, outcome: RepositoryOutcome, detail: string)
    requires name !in c.repositories
    ensures var r, r' := SaveRow(job, c).result, SaveRow(job, With(c, name, outcome, detail)).result;
            && r'.failed == r.failed + One(outcome.Failed?)
            && r'.partial == r.partial + One(outcome.Partial?)
            && r'.completed == r.completed + One(!outcome.Unfinished?)
  {
    var c' := With(c, name, outcome, detail);
    CompletedAddsUp(c);
    CompletedAddsUp(c');
    OneMoreName(c, name, outcome, detail, Failed);
    OneMoreName(c, name, outcome, detail, Partial);
    OneMoreName(c, name, outcome, detail, Complete);
  }

  /** An accepted save changes checkpoint, counts and retries only; retries are forgotten exactly when
      more repositories are completed than the row had recorded. */
  lemma SaveForgivesExactlyOnProgress(cfg: Config, s: State, l: Label)
    requires Enabled(cfg, s, l) && l.Work? && l.act.Save? && Accepted(s, l, l.act.fault)
    ensures var row' := Apply(cfg, s, l).row;
            && row'.checkpoint == l.act.value
            && row' == s.row.(checkpoint := row'.checkpoint, result := row'.result, retryCount := row'.retryCount)
            && row'.retryCount == (if row'.result.completed > s.row.result.completed then 0 else s.row.retryCount)
            && row'.result.resumePending == s.row.result.resumePending
            && row'.result.retryAfterSeconds == s.row.result.retryAfterSeconds
  {
  }

  // -------------------------------------------------- what a worker left alone goes on to do

  /** The worker takes these steps one after another, with nothing in between. */
  function Alone(cfg: Config, s: State, id: nat, acts: seq<Act>): (r: Option<State>)
    ensures r.Some? && id in s.workers ==> id in r.value.workers
    decreases |acts|
  {
    if acts == [] then Some(s)
    else if Enabled(cfg, s, Work(id, acts[0])) then Alone(cfg, Apply(cfg, s, Work(id, acts[0])), id, acts[1..])
    else None
  }

  lemma OneAct(cfg: Config, s: State, id: nat, act: Act, rest: seq<Act>)
    requires Enabled(cfg, s, Work(id, act))
    ensures Alone(cfg, s, id, [act] + rest) == Alone(cfg, Apply(cfg, s, Work(id, act)), id, rest)
  {
    assert ([act] + rest)[1..] == rest;
  }

  /** A granted claim starts the worker on the next generation with the stored checkpoint; a claim that is
      not granted, or whose answer is lost, is the worker's last. */
  lemma ClaimLeads(cfg: Config, s: State, id: nat, fault: Fault)
    requires Enabled(cfg, s, Work(id, Claim(fault)))
    ensures var w, w' := s.workers[id], Apply(cfg, s, Work(id, Claim(fault))).workers[id];
            && w'.claims == w.claims + 1 && w'.startedAt == w.startedAt
            && w'.pc == (if fault == Clean && GrantedBy(cfg, s, Work(id, Claim(fault)))
                         then Claimed(s.row.attemptCount + 1, s.row.kind, s.row.checkpoint) else Done)
  {
  }

  /** After a save the slice hands over what it saved exactly when it was told so; the store has it exactly
      when the call was accepted. A change of the collector's dictionary is handed over until then. */
  lemma SaveLeads(cfg: Config, s: State, id: nat, value: Checkpoint, fault: Fault)
    requires Enabled(cfg, s, Work(id, Save(value, fault)))
    ensures var pc, s' := s.workers[id].pc, Apply(cfg, s, Work(id, Save(value, fault)));
            var accepted := Accepted(s, Work(id, Save(value, fault)), fault);
            && s'.workers[id].pc.Slice? && s'.workers[id].pc.gen == pc.gen
            && HandedOver(s'.workers[id].pc.progress) ==
               (if accepted && fault == Clean then value else HandedOver(pc.progress))
            && LastDurable(s'.workers[id].pc.progress) == (if accepted then value else LastDurable(pc.progress))
            && (accepted ==> s'.row.checkpoint == value)
  {
  }

  /** After its claim a worker collects in a slice exactly for a GitHub job with a resumable collector,
      and outside one for every other kind that belongs to its active connection; it has no third way. */
  lemma CollectsExactly(cfg: Config, s: State, id: nat, collector: CollectorChoice)
    requires id in s.workers && s.workers[id].pc.Claimed?
    ensures var pc, pc' := s.workers[id].pc, Apply(cfg, s, Work(id, Lookup(Clean, collector))).workers[id].pc;
            var usable := s.conn.active && pc.kind in KindsOf(s.conn.provider) && !collector.Missing?;
            var sliced := cfg.resumable && pc.kind == GithubSource && collector.Resumable?;
            && (pc'.Slice? <==> usable && sliced) && (pc'.Plain? <==> usable && !sliced)
            && (pc'.Slice? ==> HandedOver(pc'.progress) == pc.start && Faithful(pc'.progress))
            && (!usable ==> if cfg.resumable && pc.kind == GithubSource then pc' == OuterCheck(pc.gen)
                            else pc' == Recording(pc.gen, pc.kind))
  {
  }

  /** A finished slice under a current claim: the claim is checked, the hook runs once, and the job
      succeeds with the report. */
  lemma FinishedSliceSucceeds(cfg: Config, s: State, id: nat, report: Report)
    requires id in s.workers && s.workers[id].pc.Slice? && !report.resumePending
    requires ClaimCurrent(s.row, s.conn, s.workers[id].pc.gen, s.now)
    ensures var gen := s.workers[id].pc.gen;
            var hook := if cfg.hooked then [Hook(false)] else [];
            var s' := Alone(cfg, s, id, [CollectReturn(report), Check(Clean)] + hook + [Finish(Clean)]);
            && s'.Some? && s'.value.workers[id].pc.Done?
            && s'.value.row == s.row.(state := Succeeded, result := report, leaseExpiresAt := None)
            && (cfg.hooked ==> s'.value.hookReturned == s.hookReturned + {(id, gen)})
  {
    var hook := if cfg.hooked then [Hook(false)] else [];
    var s1 := Apply(cfg, s, Work(id, CollectReturn(report)));
    var s2 := Apply(cfg, s1, Work(id, Check(Clean)));
    assert [CollectReturn(report), Check(Clean)] + hook + [Finish(Clean)] ==
           [CollectReturn(report)] + ([Check(Clean)] + (hook + [Finish(Clean)]));
    OneAct(cfg, s, id, CollectReturn(report), [Check(Clean)] + (hook + [Finish(Clean)]));
    OneAct(cfg, s1, id, Check(Clean), hook + [Finish(Clean)]);
    CheckedSliceSucceeds(cfg, s2, id, report);
  }

  lemma CheckedSliceSucceeds(cfg: Config, s: State, id: nat, report: Report)
    requires id in s.workers && (s.workers[id].pc.SliceHook? || s.workers[id].pc.SliceComplete?)
    requires s.workers[id].pc.report == report && (s.workers[id].pc.SliceHook? <==> cfg.hooked)
    requires ClaimCurrent(s.row, s.conn, s.workers[id].pc.gen, s.now)
    ensures var hook := if cfg.hooked then [Hook(false)] else [];
            var s' := Alone(cfg, s, id, hook + [Finish(Clean)]);
            && s'.Some? && s'.value.workers[id].pc.Done?
            && s'.value.row == s.row.(state := Succeeded, result := report, leaseExpiresAt := None)
            && (cfg.hooked ==> s'.value.hookReturned == s.hookReturned + {(id, s.workers[id].pc.gen)})
  {
    if cfg.hooked {
      OneAct(cfg, s, id, Hook(false), [Finish(Clean)]);
      var s1 := Apply(cfg, s, Work(id, Hook(false)));
      FinishesSlice(cfg, s1, id, report);
    } else {
      assert [] + [Finish(Clean)] == [Finish(Clean)];
      FinishesSlice(cfg, s, id, report);
    }
  }

  lemma FinishesSlice(cfg: Config, s: State, id: nat, report: Report)
    requires id in s.workers && s.workers[id].pc.SliceComplete? && s.workers[id].pc.report == report
    requires ClaimCurrent(s.row, s.conn, s.workers[id].pc.gen, s.now)
    ensures var s' := Alone(cfg, s, id, [Finish(Clean)]);
            && s'.Some? && s'.value.workers[id].pc.Done? && s'.value.hookReturned == s.hookReturned
            && s'.value.row == s.row.(state := Succeeded, result := report, leaseExpiresAt := None)
  {
    assert [Finish(Clean)] == [Finish(Clean)] + [];
    OneAct(cfg, s, id, Finish(Clean), []);
  }

  /** No hook and no completion without the claim: a slice whose claim is not current any more is done
      without either. */
  lemma OutdatedSliceStops(cfg: Config, s: State, id: nat)
    requires id in s.workers && s.workers[id].pc.SliceCheck?
    ensures var pc' := Apply(cfg, s, Work(id, Check(Clean))).workers[id].pc;
            if ClaimCurrent(s.row, s.conn, s.workers[id].pc.gen, s.now)
            then pc'.SliceHook? || pc'.SliceComplete? else pc'.Done?
  {
  }

  /** A slice that wants to go on defers; its next dispatch is at once exactly for an accepted deferral
      without a wait, and it is done after that. */
  lemma DispatchesExactly(cfg: Config, s: State, id: nat, fault: Fault)
    requires id in s.workers && s.workers[id].pc.SliceDefer?
    ensures var pc, s' := s.workers[id].pc, Apply(cfg, s, Work(id, Defer(fault)));
            && (s'.workers[id].pc.SliceDispatch? <==>
                  fault == Clean && ClaimCurrent(s.row, s.conn, pc.gen, s.now) && Wait(pc.report) == 0)
            && (s'.workers[id].pc.SliceError? <==> fault != Clean)
            && (s'.workers[id].pc.SliceDispatch? ==>
                  Apply(cfg, s', Work(id, Dispatch)).workers[id].pc.Done?)
  {
  }

  lemma PendingReportsDefer(cfg: Config, s: State, id: nat, report: Report)
    requires id in s.workers && s.workers[id].pc.Slice?
    ensures Apply(cfg, s, Work(id, CollectReturn(report))).workers[id].pc.SliceDefer? <==> report.resumePending
  {
  }

  /** A slice that fails under a current claim, by its collector, its hook or a call, is retried under
      that claim and is done. */
  lemma FailedSliceIsRetried(cfg: Config, s: State, id: nat)
    requires id in s.workers && s.workers[id].pc.SliceError?
    requires ClaimCurrent(s.row, s.conn, s.workers[id].pc.gen, s.now)
    ensures var s' := Alone(cfg, s, id, [Check(Clean), Retry(Clean)]);
            && s'.Some? && s'.value.workers[id].pc.Done?
            && s'.value.row.retryCount == s.row.retryCount + 1
            && s'.value.row.state == (if s.row.retryCount + 1 < cfg.maxAttempts then Queued else Terminated)
            && Sleeps(s'.value.row, s.now + 30 * SECOND)
  {
    var s1 := Apply(cfg, s, Work(id, Check(Clean)));
    assert [Check(Clean), Retry(Clean)] == [Check(Clean)] + ([Retry(Clean)] + []);
    OneAct(cfg, s, id, Check(Clean), [Retry(Clean)] + []);
    OneAct(cfg, s1, id, Retry(Clean), []);
    RetrySleeps(cfg, s1, Work(id, Retry(Clean)));
  }

  /** Every way a slice can fail leads there. */
  lemma SliceFailuresAreHandled(cfg: Config, s: State, id: nat)
    requires id in s.workers
    ensures s.workers[id].pc.Slice? ==> Apply(cfg, s, Work(id, CollectRaise)).workers[id].pc.SliceError?
    ensures s.workers[id].pc.SliceHook? ==> Apply(cfg, s, Work(id, Hook(true))).workers[id].pc.SliceError?
    ensures s.workers[id].pc.SliceComplete? ==>
              Apply(cfg, s, Work(id, Finish(LostBefore))).workers[id].pc.SliceError?
  {
  }

  /** A collection outside a slice: the hook runs once and the job succeeds with the report. */
  lemma FinishedPlainSucceeds(cfg: Config, s: State, id: nat, report: Report)
    requires id in s.workers && s.workers[id].pc.Plain? && s.row.state == Running
    ensures var hook := if cfg.hooked then [Hook(false)] else [];
            var s' := Alone(cfg, s, id, [CollectReturn(report)] + hook + [Finish(Clean)]);
            && s'.Some? && s'.value.workers[id].pc.Done?
            && s'.value.row == s.row.(state := Succeeded, result := report, leaseExpiresAt := None)
  {
    var s1 := Apply(cfg, s, Work(id, CollectReturn(report)));
    if cfg.hooked {
      assert [CollectReturn(report)] + [Hook(false)] + [Finish(Clean)] ==
             [CollectReturn(report)] + ([Hook(false)] + ([Finish(Clean)] + []));
      OneAct(cfg, s, id, CollectReturn(report), [Hook(false)] + ([Finish(Clean)] + []));
      OneAct(cfg, s1, id, Hook(false), [Finish(Clean)] + []);
      OneAct(cfg, Apply(cfg, s1, Work(id, Hook(false))), id, Finish(Clean), []);
    } else {
      assert [CollectReturn(report)] + [] + [Finish(Clean)] == [CollectReturn(report)] + ([Finish(Clean)] + []);
      OneAct(cfg, s, id, CollectReturn(report), [Finish(Clean)] + []);
      OneAct(cfg, s1, id, Finish(Clean), []);
    }
  }

  /** A failure outside a slice: a GitHub job that could be resumed is retried under its claim; any other
      records the failure and claims again exactly when the row was queued again and attempts are left. */
  lemma FailedPlainIsHandled(cfg: Config, s: State, id: nat)
    requires id in s.workers && s.workers[id].pc.Plain?
    ensures var w, s1 := s.workers[id], Apply(cfg, s, Work(id, CollectRaise));
            if cfg.resumable && w.pc.kind == GithubSource then s1.workers[id].pc == OuterCheck(w.pc.gen)
            else
              && s1.workers[id].pc == Recording(w.pc.gen, w.pc.kind)
              && var s2 := Apply(cfg, s1, Work(id, Record(Clean)));
                 var again := s.row.state == Running && s.row.attemptCount < cfg.maxAttempts
                              && w.claims < cfg.maxAttempts;
                 s2.workers[id].pc == if again then Idle else Done
  {
  }

  /** Every way to fail outside a slice leads to the same handler: the collector, its hook, the completion
      whether it was lost before or after its commit, and a look-up whose answer is lost. */
  lemma PlainFailuresAreHandled(cfg: Config, s: State, id: nat, fault: Fault, collector: CollectorChoice)
    requires id in s.workers && fault != Clean
    ensures var pc := s.workers[id].pc;
            pc.Plain? || pc.PlainHook? || pc.PlainComplete? || pc.Claimed? ==>
              var act := match pc case Plain(_, _) => CollectRaise
                                  case PlainHook(_, _, _) => Hook(true)
                                  case PlainComplete(_, _, _) => Finish(fault)
                                  case _ => Lookup(fault, collector);
              && Enabled(cfg, s, Work(id, act))
              && Apply(cfg, s, Work(id, act)).workers[id].pc ==
                 (if cfg.resumable && pc.kind == GithubSource then OuterCheck(pc.gen) else Recording(pc.gen, pc.kind))
  {
  }

  /** A worker is done after a retry, whatever its answer, and after a record or check whose answer is lost;
      in a slice a lost check is a failure of the slice. */
  lemma HandlersEnd(cfg: Config, s: State, id: nat, fault: Fault)
    requires id in s.workers
    ensures s.workers[id].pc.SliceRetry? || s.workers[id].pc.OuterRetry? ==>
              Apply(cfg, s, Work(id, Retry(fault))).workers[id].pc.Done?
    ensures s.workers[id].pc.Recording? && fault != Clean ==>
              Apply(cfg, s, Work(id, Record(fault))).workers[id].pc.Done?
    ensures (s.workers[id].pc.SliceError? || s.workers[id].pc.OuterCheck?) && fault != Clean ==>
              Apply(cfg, s, Work(id, Check(fault))).workers[id].pc.Done?
    ensures s.workers[id].pc.SliceCheck? && fault != Clean ==>
              Apply(cfg, s, Work(id, Check(fault))).workers[id].pc.SliceError?
  {
  }

  /** The handler outside a slice retries exactly under a current claim. */
  lemma OuterHandlerRetries(cfg: Config, s: State, id: nat)
    requires id in s.workers && s.workers[id].pc.OuterCheck?
    ensures var gen, pc' := s.workers[id].pc.gen, Apply(cfg, s, Work(id, Check(Clean))).workers[id].pc;
            pc' == if ClaimCurrent(s.row, s.conn, gen, s.now) then OuterRetry(gen) else Done
  {
  }
}
