/** What holds in every reachable state of the collection machine. */
module CollectionSafety {
  import opened Options
  import opened WorkerLimits
  import opened CollectionRows
  import opened CollectionMachine

  predicate HasGen(pc: Pc) { !pc.Idle? && !pc.Done? && !pc.Killed? }

  /** The worker is doing the job's work: collecting, running the hook, or about to make a call
      that changes the row without naming its generation. Error handlers of a slice are not
      included: all they do is fenced. */
  predicate Working(pc: Pc) {
    && HasGen(pc)
    && !pc.SliceDispatch? && !pc.SliceError? && !pc.SliceRetry? && !pc.OuterCheck? && !pc.OuterRetry?
  }

  /** No two containers work on the job at the same time. */
  predicate Exclusive(s: State) {
    forall i, j :: i in s.workers && j in s.workers && i != j ==>
      !(Working(s.workers[i].pc) && Working(s.workers[j].pc))
  }

  // ------------------------------------------------------------- generations

  predicate Generations(s: State) {
    && (forall i :: i in s.workers && HasGen(s.workers[i].pc) ==> s.workers[i].pc.gen <= s.row.attemptCount)
    && (forall i, j :: i in s.workers && j in s.workers && i != j ==>
          !(HasGen(s.workers[i].pc) && HasGen(s.workers[j].pc) && s.workers[i].pc.gen == s.workers[j].pc.gen))
  }

  /** What every step of a worker does to the row's identity and to its own generation. */
  lemma WorkShape(cfg: Config, s: State, id: nat, act: Act)
    requires id in s.workers && Fits(s.workers[id].pc, act)
    ensures var w, s' := s.workers[id], WorkStep(cfg, s, id, act);
            var w' := s'.workers[id];
            && s'.workers == s.workers[id := w'] && w'.startedAt == w.startedAt
            && s'.now == s.now && s'.conn == s.conn && s'.seed == s.seed
            && s.row.attemptCount <= s'.row.attemptCount
            && (Terminal(s.row) ==> s'.row == s.row)
            && (HasGen(w'.pc) && HasGen(w.pc) ==> w'.pc.gen == w.pc.gen)
            && (HasGen(w'.pc) && !HasGen(w.pc) ==>
                  && w'.pc.Claimed? && w'.pc.gen == s'.row.attemptCount == s.row.attemptCount + 1
                  && w'.pc.start == s'.row.checkpoint == s.row.checkpoint
                  && ClaimVerdictFor(s.row, s.conn, s.now) == Take
                  && s'.row == ClaimRow(s.row, s.conn, s.now, cfg.lease))
            && (HasGen(w.pc) ==> s'.row.attemptCount == s.row.attemptCount)
  {
  }

  lemma GenerationsUpdate(s: State, s': State, id: nat)
    requires Generations(s) && id in s.workers && id in s'.workers
    requires s'.workers == s.workers[id := s'.workers[id]] && s.row.attemptCount <= s'.row.attemptCount
    requires var pc, pc' := s.workers[id].pc, s'.workers[id].pc;
             HasGen(pc') ==>
               if HasGen(pc) then pc'.gen == pc.gen
               else pc'.gen == s'.row.attemptCount == s.row.attemptCount + 1
    ensures Generations(s')
  {
  }

  lemma GenerationsStep(cfg: Config, s: State, l: Label)
    requires Generations(s) && Enabled(cfg, s, l)
    ensures Generations(Apply(cfg, s, l))
  {
    if l.Work? {
      WorkShape(cfg, s, l.id, l.act);
      GenerationsUpdate(s, WorkStep(cfg, s, l.id, l.act), l.id);
    }
  }

  // ------------------------------------------------------- leases and due times

  /** The row is never stranded: it is over, due within two hours, or under a finite lease. */
  predicate Recoverable(cfg: Config, s: State) {
    match s.row.state
    case Queued => s.row.leaseExpiresAt == None && s.row.availableAt <= s.now + MAX_CONTINUATION_DELAY
    case Running => s.row.leaseExpiresAt.Some? && s.row.leaseExpiresAt.value <= s.now + cfg.lease
                    && s.row.availableAt <= s.now
    case _ => s.row.leaseExpiresAt == None
  }

  lemma RecoverableStep(cfg: Config, s: State, l: Label)
    requires Recoverable(cfg, s) && Enabled(cfg, s, l)
    ensures Recoverable(cfg, Apply(cfg, s, l))
  {
  }

  // ----------------------------------------------------------- success and hooks

  predicate BeforeHook(pc: Pc) {
    pc.Claimed? || pc.Slice? || pc.SliceCheck? || pc.SliceHook? || pc.Plain? || pc.PlainHook?
  }

  predicate Completing(pc: Pc) { pc.SliceComplete? || pc.PlainComplete? }

  predicate Hooks(cfg: Config, s: State) {
    && s.hookReturned !! s.hookRaised
    && (forall p :: p in s.hookReturned + s.hookRaised ==> p.0 in s.workers && p.1 <= s.row.attemptCount)
    && (forall i :: i in s.workers && BeforeHook(s.workers[i].pc) ==>
          (i, s.workers[i].pc.gen) !in s.hookReturned + s.hookRaised)
    && (forall i :: i in s.workers && Completing(s.workers[i].pc) && cfg.hooked ==>
          (i, s.workers[i].pc.gen) in s.hookReturned)
    && (s.row.state == Succeeded <==> s.succeededBy.Some?)
    && (s.succeededBy.Some? && cfg.hooked ==> s.succeededBy.value in s.hookReturned)
  }

  lemma HooksShape(cfg: Config, s: State, id: nat, act: Act)
    requires id in s.workers && Fits(s.workers[id].pc, act)
    ensures var s' := WorkStep(cfg, s, id, act);
            var pc, pc' := s.workers[id].pc, s'.workers[id].pc;
            && (BeforeHook(pc') ==> !HasGen(pc) || (BeforeHook(pc) && !act.Hook?))
            && (Completing(pc') && cfg.hooked ==> act.Hook? && !act.raises)
            && (act.Hook? ==> BeforeHook(pc) && s'.row == s.row)
            && (act.Finish? ==> Completing(pc))
            && (s'.row.state == Succeeded && s.row.state != Succeeded ==> act.Finish?)
  {
  }

  lemma HooksUpdate(cfg: Config, s: State, s': State, id: nat, act: Act)
    requires Hooks(cfg, s) && Generations(s) && Generations(s')
    requires id in s.workers && id in s'.workers && s'.workers == s.workers[id := s'.workers[id]]
    requires s.row.attemptCount <= s'.row.attemptCount
    requires var pc, pc' := s.workers[id].pc, s'.workers[id].pc;
             && (HasGen(pc) && HasGen(pc') ==> pc.gen == pc'.gen)
             && (HasGen(pc') && !HasGen(pc) ==> pc'.Claimed? && pc'.gen == s.row.attemptCount + 1)
             && (BeforeHook(pc') ==> !HasGen(pc) || (BeforeHook(pc) && !act.Hook?))
             && (Completing(pc') && cfg.hooked ==> act.Hook? && !act.raises)
             && (act.Hook? ==> BeforeHook(pc))
             && (act.Finish? ==> Completing(pc))
             && (s'.row.state == Succeeded && s.row.state != Succeeded ==> act.Finish?)
             && (s.row.state == Succeeded ==> s'.row == s.row)
             && s'.hookReturned ==
                (if act.Hook? && !act.raises then s.hookReturned + {(id, pc.gen)} else s.hookReturned)
             && s'.hookRaised == (if act.Hook? && act.raises then s.hookRaised + {(id, pc.gen)} else s.hookRaised)
             && s'.succeededBy == (if act.Finish? && s'.row.state == Succeeded && s.row.state != Succeeded
                                   then Some((id, pc.gen)) else s.succeededBy)
    ensures Hooks(cfg, s')
  {
  }

  lemma HooksStep(cfg: Config, s: State, l: Label)
    requires Hooks(cfg, s) && Generations(s) && Enabled(cfg, s, l)
    ensures Hooks(cfg, Apply(cfg, s, l))
  {
    if l.Work? {
      WorkShape(cfg, s, l.id, l.act);
      HooksShape(cfg, s, l.id, l.act);
      GenerationsStep(cfg, s, l);
      HooksUpdate(cfg, s, WorkStep(cfg, s, l.id, l.act), l.id, l.act);
    }
  }

  // ------------------------------------------------------------ checkpoint writes

  predicate Sorted(ws: seq<Write>) {
    forall i, j :: 0 <= i < j < |ws| ==> ws[i].gen <= ws[j].gen
  }

  function LastWritten(seed: Checkpoint, ws: seq<Write>): Checkpoint {
    if ws == [] then seed else ws[|ws| - 1].value
  }

  predicate Stored(s: State) {
    && Sorted(s.writes)
    && (forall k :: 0 <= k < |s.writes| ==> s.writes[k].gen <= s.row.attemptCount)
    && s.row.checkpoint == LastWritten(s.seed, s.writes)
    && (forall i :: i in s.workers ==> InStep(s.row, s.workers[i].pc))
  }

  /** While its claim is the latest, the last save of a worker that took effect is what is stored. */
  predicate InStep(row: Job, pc: Pc) {
    && (pc.Claimed? && pc.gen == row.attemptCount ==> pc.start == row.checkpoint)
    && ((pc.Slice? || pc.SliceDefer?) && pc.gen == row.attemptCount ==> LastDurable(pc.progress) == row.checkpoint)
  }

  lemma StoredShape(cfg: Config, s: State, id: nat, act: Act)
    requires id in s.workers && Fits(s.workers[id].pc, act)
    requires InStep(s.row, s.workers[id].pc)
    requires HasGen(s.workers[id].pc) ==> s.workers[id].pc.gen <= s.row.attemptCount
    ensures var s' := WorkStep(cfg, s, id, act);
            var pc, written := s.workers[id].pc, WriteOf(s, s.workers[id].pc, act);
            && s'.writes == (if written.Some? then s.writes + [written.value] else s.writes)
            && s'.row.checkpoint == (if written.Some? then written.value.value else s.row.checkpoint)
            && (written.Some? ==> HasGen(pc) && pc.gen == s.row.attemptCount == written.value.gen)
            && InStep(s'.row, s'.workers[id].pc)
  {
  }

  lemma StoredUpdate(s: State, s': State, id: nat, written: Option<Write>)
    requires Stored(s) && Generations(s) && id in s.workers && id in s'.workers
    requires s'.workers == s.workers[id := s'.workers[id]] && s.row.attemptCount <= s'.row.attemptCount
    requires s'.seed == s.seed
    requires s'.writes == (if written.Some? then s.writes + [written.value] else s.writes)
    requires s'.row.checkpoint == (if written.Some? then written.value.value else s.row.checkpoint)
    requires written.Some? ==>
               HasGen(s.workers[id].pc) && s.workers[id].pc.gen == s.row.attemptCount == written.value.gen
    requires InStep(s'.row, s'.workers[id].pc)
    ensures Stored(s')
  {
  }

  lemma StoredStep(cfg: Config, s: State, l: Label)
    requires Stored(s) && Generations(s) && Enabled(cfg, s, l)
    ensures Stored(Apply(cfg, s, l))
  {
    if l.Work? {
      WorkShape(cfg, s, l.id, l.act);
      StoredShape(cfg, s, l.id, l.act);
      StoredUpdate(s, WorkStep(cfg, s, l.id, l.act), l.id, WriteOf(s, s.workers[l.id].pc, l.act));
    }
  }

  // ---------------------------------------------------------------- exclusion

  predicate Timed(cfg: Config, s: State) {
    && (forall i :: i in s.workers && Live(s.workers[i]) ==>
          s.workers[i].startedAt <= s.now <= s.workers[i].startedAt + cfg.killBound)
    && (forall i :: i in s.workers && Working(s.workers[i].pc) ==>
          || Terminal(s.row)
          || (&& s.row.state == Running
              && s.row.attemptCount == s.workers[i].pc.gen
              && s.row.leaseExpiresAt.Some?
              && s.row.leaseExpiresAt.value >= s.workers[i].startedAt + cfg.killBound))
    && Exclusive(s)
    && (s.succeededBy.Some? ==> s.succeededBy.value.1 == s.row.attemptCount)
  }

  /** What decides who may work: the row's state, its generation and its lease. */
  predicate SameGrant(job: Job, job': Job) {
    job.state == job'.state && job.attemptCount == job'.attemptCount && job.leaseExpiresAt == job'.leaseExpiresAt
  }

  lemma TimedShape(cfg: Config, s: State, id: nat, act: Act)
    requires id in s.workers && Fits(s.workers[id].pc, act)
    ensures var s' := WorkStep(cfg, s, id, act);
            var pc, pc' := s.workers[id].pc, s'.workers[id].pc;
            && (Live(s'.workers[id]) ==> Live(s.workers[id]))
            && (act.Finish? ==> Working(pc))
            && (Working(pc') && HasGen(pc) ==> Working(pc) && (Terminal(s'.row) || SameGrant(s.row, s'.row)))
            && (Terminal(s'.row) || SameGrant(s.row, s'.row)
                || (act.Claim? && ClaimVerdictFor(s.row, s.conn, s.now) == Take
                    && s'.row.leaseExpiresAt == Some(s.now + cfg.lease))
                || (HasGen(pc) && (Working(pc) || pc.gen == s.row.attemptCount)))
  {
  }

  lemma TimedUpdate(cfg: Config, s: State, s': State, id: nat, act: Act)
    requires cfg.killBound <= cfg.lease
    requires Timed(cfg, s) && Generations(s) && (s.row.state == Succeeded <==> s.succeededBy.Some?)
    requires id in s.workers && id in s'.workers && s'.workers == s.workers[id := s'.workers[id]]
    requires s'.now == s.now && s'.workers[id].startedAt == s.workers[id].startedAt
    requires Terminal(s.row) ==> s'.row == s.row
    requires Live(s'.workers[id]) ==> Live(s.workers[id])
    requires act.Finish? ==> Working(s.workers[id].pc) && s'.row.attemptCount == s.row.attemptCount
    requires s'.succeededBy == (if act.Finish? && s'.row.state == Succeeded && s.row.state != Succeeded
                                then Some((id, s.workers[id].pc.gen)) else s.succeededBy)
    requires var pc, pc' := s.workers[id].pc, s'.workers[id].pc;
             var take := ClaimVerdictFor(s.row, s.conn, s.now) == Take;
             && (HasGen(pc) && HasGen(pc') ==> pc.gen == pc'.gen)
             && (HasGen(pc') && !HasGen(pc) ==>
                   && take && pc'.gen == s'.row.attemptCount && s'.row.state == Running
                   && s'.row.leaseExpiresAt == Some(s.now + cfg.lease))
             && (Working(pc') && HasGen(pc) ==> Working(pc) && (Terminal(s'.row) || SameGrant(s.row, s'.row)))
             && (Terminal(s'.row) || SameGrant(s.row, s'.row) || take
                 || (HasGen(pc) && (Working(pc) || pc.gen == s.row.attemptCount)))
    ensures Timed(cfg, s')
  {
    if ClaimVerdictFor(s.row, s.conn, s.now) == Take {
      forall j | j in s.workers ensures !Working(s.workers[j].pc) {
        assert Live(s.workers[j]) || !Working(s.workers[j].pc);
      }
    }
    forall j | j in s.workers && j != id && Working(s.workers[j].pc)
      ensures Terminal(s'.row) || SameGrant(s.row, s'.row)
    {
      assert !(Working(s.workers[id].pc) && Working(s.workers[j].pc));
    }
  }

  lemma TimedStep(cfg: Config, s: State, l: Label)
    requires cfg.killBound <= cfg.lease
    requires Timed(cfg, s) && Generations(s) && Hooks(cfg, s) && Enabled(cfg, s, l)
    ensures Timed(cfg, Apply(cfg, s, l))
  {
    match l
    case Work(id, act) =>
      WorkShape(cfg, s, id, act);
      TimedShape(cfg, s, id, act);
      TimedUpdate(cfg, s, WorkStep(cfg, s, id, act), id, act);
    case Tick(_) =>
    case Spawn(_) =>
    case Kill(_) =>
    case FailDispatch =>
    case Recover =>
    case SetConnection(_) =>
    case Expire => TimedExpire(cfg, s);
  }

  lemma TimedExpire(cfg: Config, s: State)
    requires Timed(cfg, s)
    ensures Timed(cfg, s.(row := ExpireRow(s.row, s.now)))
  {
  }

  // -------------------------------------------------------- every reachable state

  predicate Invariant(cfg: Config, s: State) {
    && Generations(s) && Recoverable(cfg, s) && Hooks(cfg, s) && Stored(s)
    && (cfg.killBound <= cfg.lease ==> Timed(cfg, s))
  }

  lemma InvariantStep(cfg: Config, s: State, l: Label)
    requires Invariant(cfg, s) && Enabled(cfg, s, l)
    ensures Invariant(cfg, Apply(cfg, s, l))
  {
    GenerationsStep(cfg, s, l);
    RecoverableStep(cfg, s, l);
    HooksStep(cfg, s, l);
    StoredStep(cfg, s, l);
    if cfg.killBound <= cfg.lease { TimedStep(cfg, s, l); }
  }

  lemma {:induction false} InvariantRun(cfg: Config, s: State, ls: seq<Label>)
    requires Invariant(cfg, s) && Exec(cfg, s, ls).Some?
    ensures Invariant(cfg, Exec(cfg, s, ls).value)
    decreases |ls|
  {
    if ls != [] {
      InvariantStep(cfg, s, ls[0]);
      InvariantRun(cfg, Apply(cfg, s, ls[0]), ls[1..]);
    }
  }

  lemma ReachableInvariant(cfg: Config, s: State)
    requires Reachable(cfg, s)
    ensures Invariant(cfg, s)
  {
    var s0, ls :| Init(s0) && Exec(cfg, s0, ls) == Some(s);
    InvariantRun(cfg, s0, ls);
  }
}
