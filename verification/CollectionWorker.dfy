/** `run_durable_collection_job` as it runs against the store while the rest of the system moves:
    between any two of its calls other containers, the clock, the connection and the recovery
    scheduler take any number of steps, and each call may raise before or after it commits.

    The machine of CollectionMachine.dfy is the specification: every execution of the methods here
    is one of its runs. */
module CollectionWorker {
  import opened Options
  import opened WorkerLimits
  import opened CollectionRows
  import opened CollectionMachine
  import opened CollectionStore

  /** The labels are steps of everything but container `id`. */
  predicate Foreign(ls: seq<Label>, id: nat) {
    forall k :: 0 <= k < |ls| ==> !((ls[k].Spawn? || ls[k].Kill? || ls[k].Work?) && ls[k].id == id)
  }

  lemma {:induction false} ForeignKeepsWorker(cfg: Config, s: State, ls: seq<Label>, id: nat)
    requires Exec(cfg, s, ls).Some? && Foreign(ls, id) && id in s.workers
    ensures var s' := Exec(cfg, s, ls).value; id in s'.workers && s'.workers[id] == s.workers[id] && s'.seed == s.seed
    decreases |ls|
  {
    if ls != [] {
      assert !((ls[0].Spawn? || ls[0].Kill? || ls[0].Work?) && ls[0].id == id);
      assert Foreign(ls[1..], id);
      ForeignKeepsWorker(cfg, Apply(cfg, s, ls[0]), ls[1..], id);
    }
  }

  /** The run `ls` takes `s` to `s'`; its last step is one step of container `id`, answered
      `answer`, and all the others are foreign to it. `committed` says of a save that it took effect. */
  ghost predicate Called(cfg: Config, s: State, ls: seq<Label>, s': State, id: nat, answer: Answer, committed: bool) {
    && Exec(cfg, s, ls) == Some(s')
    && ls != [] && ls[|ls| - 1].Work? && ls[|ls| - 1].id == id
    && Foreign(ls[..|ls| - 1], id)
    && id in s.workers && id in s'.workers
    && var act := ls[|ls| - 1].act;
    && Fits(s.workers[id].pc, act)
    && s'.workers[id] == Worker(s.workers[id].startedAt,
                                if act.Claim? then s.workers[id].claims + 1 else s.workers[id].claims,
                                Noted(NextPc(cfg, s.workers[id], act, answer), act, committed))
  }

  /** A dictionary the collector may hold a reference to. */
  class Dictionary {
    var content: Checkpoint

    constructor (content: Checkpoint)
      ensures this.content == content
    {
      this.content := content;
    }
  }

  /** The store, and what an observer of the whole system has seen. */
  class System {
    const store: JobStore
    const seed: Checkpoint
    var workers: map<nat, Worker>
    var writes: seq<Write>
    var hookReturned: set<(nat, nat)>
    var hookRaised: set<(nat, nat)>
    var succeededBy: Option<(nat, nat)>

    constructor (kind: CollectionKind, connection: Connection, now: int, seed: Checkpoint, report: Report)
      requires kind != GithubSource ==> seed == EMPTY && report == NO_REPORT
      ensures fresh(store) && Init(View()) && this.seed == seed
    {
      var s := new JobStore(kind, connection, now, seed, report);
      store := s;
      this.seed := seed;
      workers, writes, hookReturned, hookRaised, succeededBy := map[], [], {}, {}, None;
    }

    function View(): State
      reads this, store
    {
      State(store.now, store.connection, seed, store.row, workers, writes, hookReturned, hookRaised, succeededBy)
    }

    /** Any number of steps of everything else. */
    method Interfere(cfg: Config, id: nat) returns (ghost ls: seq<Label>)
      requires id in workers
      modifies this, store
      ensures Exec(cfg, old(View()), ls) == Some(View()) && Foreign(ls, id)
      ensures id in workers && workers[id] == old(workers[id])
    {
      var labels: seq<Label> := *;
      ls := [];
      if Foreign(labels, id) && Exec(cfg, View(), labels).Some? {
        ForeignKeepsWorker(cfg, View(), labels, id);
        var s := Exec(cfg, View(), labels).value;
        store.now, store.connection, store.row := s.now, s.conn, s.row;
        workers, writes, hookReturned, hookRaised, succeededBy :=
          s.workers, s.writes, s.hookReturned, s.hookRaised, s.succeededBy;
        ls := labels;
      }
    }

    /** Notes the step `act` of container `id`, which the store has just answered. */
    method Observe(cfg: Config, s: State, id: nat, act: Act, answer: Answer, ghost start: State,
                   ghost before: seq<Label>)
      returns (ghost ls: seq<Label>)
      requires id in s.workers && id in start.workers && start.workers[id] == s.workers[id]
      requires Fits(s.workers[id].pc, act)
      requires View() == s.(row := store.row)
      requires (store.row, answer) == Effect(cfg, s, s.workers[id].pc, act)
      requires Exec(cfg, start, before) == Some(s) && Foreign(before, id)
      modifies this
      ensures store.row == old(store.row)
      ensures ls == before + [Work(id, act)]
      ensures Called(cfg, start, ls, View(), id, answer, WriteOf(s, s.workers[id].pc, act).Some?)
    {
      var s' := WorkStep(cfg, s, id, act);
      workers, writes, hookReturned, hookRaised, succeededBy :=
        s'.workers, s'.writes, s'.hookReturned, s'.hookRaised, s'.succeededBy;
      ls := before + [Work(id, act)];
      ExecAppend(cfg, start, before, Work(id, act));
      assert ls[..|ls| - 1] == before;
      assert View() == s';
    }

    method Claim(cfg: Config, id: nat) returns (answer: Answer, ghost ls: seq<Label>)
      requires id in workers && workers[id].pc.Idle?
      modifies this, store
      ensures Called(cfg, old(View()), ls, View(), id, answer, false) && ls[|ls| - 1].act.Claim?
    {
      ghost var before := Interfere(cfg, id);
      var fault: Fault := *;
      var s := View();
      answer := Raised;
      if fault != LostBefore {
        var job := store.Claim(cfg.lease);
        if fault == Clean { answer := if job.Some? then Granted(job.value) else No; }
      }
      ls := Observe(cfg, s, id, Act.Claim(fault), answer, old(View()), before);
    }

    /** Target lookup and choice of the collector. */
    method Lookup(cfg: Config, id: nat, kind: CollectionKind, collector: CollectorChoice)
      returns (answer: Answer, ghost ls: seq<Label>)
      requires id in workers && workers[id].pc.Claimed? && workers[id].pc.kind == kind
      modifies this, store
      ensures Called(cfg, old(View()), ls, View(), id, answer, false)
      ensures ls[|ls| - 1].act.Lookup? && ls[|ls| - 1].act.collector == collector
    {
      ghost var before := Interfere(cfg, id);
      var fault: Fault := *;
      var s := View();
      var target := store.connection;
      answer := Raised;
      if fault == Clean && target.active && kind in KindsOf(target.provider) && collector != Missing {
        answer := Yes;
      }
      ls := Observe(cfg, s, id, Act.Lookup(fault, collector), answer, old(View()), before);
    }

    method IsCurrent(cfg: Config, id: nat, gen: nat) returns (answer: Answer, ghost ls: seq<Label>)
      requires id in workers && Fits(workers[id].pc, Check(Clean)) && workers[id].pc.gen == gen
      modifies this, store
      ensures Called(cfg, old(View()), ls, View(), id, answer, false) && ls[|ls| - 1].act.Check?
      ensures answer == Raised || answer == Yes || answer == No
    {
      ghost var before := Interfere(cfg, id);
      var fault: Fault := *;
      var s := View();
      answer := Raised;
      if fault == Clean {
        var current := store.IsCurrent(gen);
        answer := if current then Yes else No;
      }
      ls := Observe(cfg, s, id, Check(fault), answer, old(View()), before);
    }

    /** `committed`: the save took effect, whether or not its answer arrives. */
    method Save(cfg: Config, id: nat, gen: nat, value: Checkpoint)
      returns (answer: Answer, ghost committed: bool, ghost ls: seq<Label>)
      requires id in workers && workers[id].pc.Slice? && workers[id].pc.gen == gen
      modifies this, store
      ensures Called(cfg, old(View()), ls, View(), id, answer, committed)
      ensures ls[|ls| - 1].act.Save? && ls[|ls| - 1].act.value == value
      ensures answer == Raised || (answer == Yes && committed) || (answer == No && !committed)
    {
      ghost var before := Interfere(cfg, id);
      var fault: Fault := *;
      var s := View();
      answer := Raised;
      committed := false;
      if fault != LostBefore {
        var saved := store.SaveCheckpoint(gen, value);
        committed := saved;
        if fault == Clean { answer := if saved then Yes else No; }
      }
      ls := Observe(cfg, s, id, Act.Save(value, fault), answer, old(View()), before);
    }

    method Defer(cfg: Config, id: nat, gen: nat, checkpoint: Checkpoint, report: Report, delay: nat)
      returns (answer: Answer, ghost ls: seq<Label>)
      requires id in workers
      requires var pc := workers[id].pc;
               pc.SliceDefer? && pc.gen == gen && HandedOver(pc.progress) == checkpoint && pc.report == report
      requires delay == SliceDelay(report)
      modifies this, store
      ensures Called(cfg, old(View()), ls, View(), id, answer, false) && ls[|ls| - 1].act.Defer?
      ensures answer == Raised || answer == Yes || answer == No
    {
      ghost var before := Interfere(cfg, id);
      var fault: Fault := *;
      var s := View();
      answer := Raised;
      if fault != LostBefore {
        var queued := store.Defer(gen, checkpoint, report, delay);
        if fault == Clean { answer := if queued then Yes else No; }
      }
      ls := Observe(cfg, s, id, Act.Defer(fault), answer, old(View()), before);
    }

    method CompleteResumable(cfg: Config, id: nat, gen: nat, report: Report)
      returns (answer: Answer, ghost ls: seq<Label>)
      requires id in workers && workers[id].pc == SliceComplete(gen, report)
      modifies this, store
      ensures Called(cfg, old(View()), ls, View(), id, answer, false) && ls[|ls| - 1].act.Finish?
    {
      ghost var before := Interfere(cfg, id);
      var fault: Fault := *;
      var s := View();
      answer := Raised;
      if fault != LostBefore {
        var done := store.CompleteResumable(gen, report);
        if fault == Clean { answer := if done then Yes else No; }
      }
      ls := Observe(cfg, s, id, Finish(fault), answer, old(View()), before);
    }

    method RetryResumable(cfg: Config, id: nat, gen: nat) returns (answer: Answer, ghost ls: seq<Label>)
      requires id in workers && Fits(workers[id].pc, Retry(Clean)) && workers[id].pc.gen == gen
      modifies this, store
      ensures Called(cfg, old(View()), ls, View(), id, answer, false) && ls[|ls| - 1].act.Retry?
    {
      ghost var before := Interfere(cfg, id);
      var fault: Fault := *;
      var s := View();
      answer := Raised;
      if fault != LostBefore {
        var queued := store.RetryResumable(gen, cfg.maxAttempts, RETRY_DELAY);
        if fault == Clean { answer := if queued then Yes else No; }
      }
      ls := Observe(cfg, s, id, Retry(fault), answer, old(View()), before);
    }

    method Complete(cfg: Config, id: nat, report: Report) returns (answer: Answer, ghost ls: seq<Label>)
      requires id in workers && workers[id].pc.PlainComplete? && workers[id].pc.report == report
      modifies this, store
      ensures Called(cfg, old(View()), ls, View(), id, answer, false) && ls[|ls| - 1].act.Finish?
    {
      ghost var before := Interfere(cfg, id);
      var fault: Fault := *;
      var s := View();
      answer := Raised;
      if fault != LostBefore {
        store.Complete(report);
        if fault == Clean { answer := Silent; }
      }
      ls := Observe(cfg, s, id, Finish(fault), answer, old(View()), before);
    }

    method RecordFailure(cfg: Config, id: nat) returns (answer: Answer, ghost ls: seq<Label>)
      requires id in workers && workers[id].pc.Recording?
      modifies this, store
      ensures Called(cfg, old(View()), ls, View(), id, answer, false) && ls[|ls| - 1].act.Record?
    {
      ghost var before := Interfere(cfg, id);
      var fault: Fault := *;
      var s := View();
      answer := Raised;
      if fault != LostBefore {
        var retry := store.RecordFailure(cfg.maxAttempts);
        if fault == Clean { answer := if retry then Yes else No; }
      }
      ls := Observe(cfg, s, id, Record(fault), answer, old(View()), before);
    }

    /** A step that leaves the row alone: the collector or the hook ends, a dictionary changes. */
    method Own(cfg: Config, id: nat, act: Act) returns (answer: Answer, ghost ls: seq<Label>)
      requires id in workers && Fits(workers[id].pc, act)
      requires act.Mutate? || act.CollectReturn? || act.CollectRaise? || act.Dispatch? || act.Hook?
      modifies this, store
      ensures Called(cfg, old(View()), ls, View(), id, answer, false) && ls[|ls| - 1].act == act
      ensures answer == if act.CollectRaise? || (act.Hook? && act.raises) then Raised else Silent
    {
      ghost var before := Interfere(cfg, id);
      var s := View();
      answer := if act.CollectRaise? || (act.Hook? && act.raises) then Raised else Silent;
      ls := Observe(cfg, s, id, act, answer, old(View()), before);
    }
  }

  /** The methods below keep this: the steps so far are a run of the machine from `s`. */
  ghost predicate Ran(cfg: Config, s: State, trace: seq<Label>, sys: System, id: nat)
    reads sys, sys.store
  {
    Exec(cfg, s, trace) == Some(sys.View()) && id in sys.workers
  }

  lemma Then(cfg: Config, s: State, trace: seq<Label>, middle: State, ls: seq<Label>, s': State, id: nat,
             answer: Answer, committed: bool := false)
    requires Exec(cfg, s, trace) == Some(middle) && Called(cfg, middle, ls, s', id, answer, committed)
    ensures Exec(cfg, s, trace + ls) == Some(s')
  {
    ExecConcat(cfg, s, trace, ls);
  }

  function LastOf(values: seq<Checkpoint>): Option<Checkpoint> {
    if values == [] then None else Some(values[|values| - 1])
  }

  /** The handler of a slice: retry under the claim if it is still current. */
  method HandleSliceError(sys: System, cfg: Config, id: nat, gen: nat) returns (ghost trace: seq<Label>)
    requires id in sys.workers && sys.workers[id].pc == SliceError(gen)
    modifies sys, sys.store
    ensures Ran(cfg, old(sys.View()), trace, sys, id)
    ensures sys.workers[id].pc.Done? && sys.workers[id].claims == old(sys.workers[id].claims)
  {
    ghost var s0 := sys.View();
    var current, ls := sys.IsCurrent(cfg, id, gen);
    trace := ls;
    if current != Yes { return; }
    ghost var s1 := sys.View();
    var answer, more := sys.RetryResumable(cfg, id, gen);
    Then(cfg, s0, trace, s1, more, sys.View(), id, answer);
    trace := trace + more;
  }

  /** One in-place change by the collector. Dictionaries may share what is nested in them, so it may
      change all it can reach at once; it cannot reach the slice's own copies. */
  method ChangeInPlace(held: set<Dictionary>)
    modifies held
  {
    var left := held;
    while left != {}
      invariant left <= held
    {
      var d :| d in left;
      d.content := *;
      left := left - {d};
    }
  }

  /** `accepted` are the saves the slice was told were accepted; `durable` the saves that took effect,
      and `lost` those of them since the last accepted one, which all raised. */
  predicate Ledger(p: Progress, accepted: seq<Checkpoint>, durable: seq<Checkpoint>, lost: seq<Checkpoint>) {
    && p.acked == LastOf(accepted) && p.durable == LastOf(durable) && (p.raised || lost == [])
    && |lost| <= |durable| && lost == durable[|durable| - |lost|..]
    && (if accepted == [] then lost == durable
        else |lost| < |durable| && durable[|durable| - |lost| - 1] == accepted[|accepted| - 1])
  }

  function AfterSave(p: Progress, value: Checkpoint, saved: bool, committed: bool, raised: bool): Progress {
    p.(acked := if saved then Some(value) else p.acked, durable := if committed then Some(value) else p.durable,
       raised := raised)
  }

  lemma LedgerSaves(p: Progress, accepted: seq<Checkpoint>, durable: seq<Checkpoint>, lost: seq<Checkpoint>,
                    value: Checkpoint, saved: bool, committed: bool, raised: bool)
    requires Ledger(p, accepted, durable, lost)
    requires saved ==> committed && !raised
    requires !saved && (committed || p.raised) ==> raised
    ensures Ledger(AfterSave(p, value, saved, committed, raised),
                   if saved then accepted + [value] else accepted,
                   if committed then durable + [value] else durable,
                   if saved then [] else if committed then lost + [value] else lost)
  {
  }

  /** The slice of a worker whose collector runs: what it claimed, what the dictionary it gave away
      holds now, and its saves so far. */
  predicate Collecting(w: Worker, claims: nat, gen: nat, claimed: Checkpoint, passed: Checkpoint,
                       accepted: seq<Checkpoint>, durable: seq<Checkpoint>, lost: seq<Checkpoint>) {
    && w.claims == claims && w.pc.Slice? && w.pc.gen == gen
    && w.pc.progress.start == claimed && w.pc.progress.passed == passed
    && Ledger(w.pc.progress, accepted, durable, lost)
  }

  method ChangeStep(sys: System, cfg: Config, id: nat, held: set<Dictionary>, start: Dictionary,
                    ghost claims: nat, ghost gen: nat, ghost claimed: Checkpoint, ghost accepted: seq<Checkpoint>,
                    ghost durable: seq<Checkpoint>, ghost lost: seq<Checkpoint>)
    returns (ghost trace: seq<Label>)
    requires id in sys.workers
    requires Collecting(sys.workers[id], claims, gen, claimed, start.content, accepted, durable, lost)
    modifies sys, sys.store, held
    ensures Ran(cfg, old(sys.View()), trace, sys, id)
    ensures Collecting(sys.workers[id], claims, gen, claimed, start.content, accepted, durable, lost)
  {
    ChangeInPlace(held);
    var answer, ls := sys.Own(cfg, id, Mutate(start.content));
    trace := ls;
  }

  /** One attempt to save. */
  method Attempt(sys: System, cfg: Config, id: nat, gen: nat, value: Checkpoint)
    returns (saved: bool, ghost committed: bool, ghost trace: seq<Label>)
    requires id in sys.workers && sys.workers[id].pc.Slice? && sys.workers[id].pc.gen == gen
    modifies sys, sys.store
    ensures Ran(cfg, old(sys.View()), trace, sys, id)
    ensures Saved(old(sys.workers[id]), sys.workers[id], value, saved, committed)
  {
    var answer;
    answer, committed, trace := sys.Save(cfg, id, gen, value);
    saved := answer == Yes;
  }

  predicate Saved(w: Worker, w': Worker, value: Checkpoint, saved: bool, committed: bool) {
    && w.pc.Slice? && w'.pc.Slice? && w'.pc.gen == w.pc.gen && w'.claims == w.claims
    && w'.pc.progress == AfterSave(w.pc.progress, value, saved, committed, w'.pc.progress.raised)
    && (saved ==> committed && !w'.pc.progress.raised)
    && (!saved && (committed || w.pc.progress.raised) ==> w'.pc.progress.raised)
  }

  lemma SavedCollects(w: Worker, w': Worker, value: Checkpoint, saved: bool, committed: bool,
                      claims: nat, gen: nat, claimed: Checkpoint, passed: Checkpoint,
                      accepted: seq<Checkpoint>, durable: seq<Checkpoint>, lost: seq<Checkpoint>)
    requires Collecting(w, claims, gen, claimed, passed, accepted, durable, lost)
    requires Saved(w, w', value, saved, committed)
    ensures Collecting(w', claims, gen, claimed, passed,
                       if saved then accepted + [value] else accepted,
                       if committed then durable + [value] else durable,
                       if saved then [] else if committed then lost + [value] else lost)
  {
    LedgerSaves(w.pc.progress, accepted, durable, lost, value, saved, committed, w'.pc.progress.raised);
  }

  method SaveStep(sys: System, cfg: Config, id: nat, gen: nat, value: Checkpoint,
                  ghost claims: nat, ghost claimed: Checkpoint, ghost passed: Checkpoint,
                  ghost accepted: seq<Checkpoint>, ghost durable: seq<Checkpoint>, ghost lost: seq<Checkpoint>)
    returns (saved: bool, ghost durable': seq<Checkpoint>, ghost lost': seq<Checkpoint>, ghost trace: seq<Label>)
    requires id in sys.workers
    requires Collecting(sys.workers[id], claims, gen, claimed, passed, accepted, durable, lost)
    modifies sys, sys.store
    ensures Ran(cfg, old(sys.View()), trace, sys, id)
    ensures Collecting(sys.workers[id], claims, gen, claimed, passed,
                       if saved then accepted + [value] else accepted, durable', lost')
  {
    ghost var committed;
    ghost var w := sys.workers[id];
    saved, committed, trace := Attempt(sys, cfg, id, gen, value);
    SavedCollects(w, sys.workers[id], value, saved, committed, claims, gen, claimed, passed, accepted, durable, lost);
    durable' := if committed then durable + [value] else durable;
    lost' := if saved then [] else if committed then lost + [value] else lost;
  }

  /** The slice's variable: the dictionary it gave away, or its own copy of the last accepted save. */
  ghost predicate Variable(checkpoint: Dictionary, start: Dictionary, held: set<Dictionary>, accepted: seq<Checkpoint>)
    reads checkpoint
  {
    if accepted == [] then checkpoint == start
    else checkpoint.content == accepted[|accepted| - 1] && checkpoint !in held
  }

  /** One step of a collector: it changes what it can reach, makes a dictionary, or tries to save. */
  method CollectorStep(sys: System, cfg: Config, id: nat, gen: nat, start: Dictionary, checkpoint: Dictionary,
                       held: set<Dictionary>, ghost claims: nat, ghost claimed: Checkpoint,
                       ghost accepted: seq<Checkpoint>, ghost durable: seq<Checkpoint>, ghost lost: seq<Checkpoint>)
    returns (checkpoint': Dictionary, held': set<Dictionary>, ghost accepted': seq<Checkpoint>,
             ghost durable': seq<Checkpoint>, ghost lost': seq<Checkpoint>, ghost trace: seq<Label>)
    requires id in sys.workers && start in held
    requires Collecting(sys.workers[id], claims, gen, claimed, start.content, accepted, durable, lost)
    requires Variable(checkpoint, start, held, accepted)
    modifies sys, sys.store, held
    ensures Ran(cfg, old(sys.View()), trace, sys, id)
    ensures Collecting(sys.workers[id], claims, gen, claimed, start.content, accepted', durable', lost')
    ensures Variable(checkpoint', start, held', accepted')
    ensures checkpoint' == checkpoint || fresh(checkpoint')
    ensures held <= held' && fresh(held' - held)
  {
    var choice: nat := *;
    var value: Checkpoint := *;
    checkpoint', held', accepted', durable', lost' := checkpoint, held, accepted, durable, lost;
    if choice == 0 {
      trace := ChangeStep(sys, cfg, id, held, start, claims, gen, claimed, accepted, durable, lost);
    } else if choice == 1 {
      var created := new Dictionary(value);
      held' := held + {created};
      trace := [];
    } else {
      var saved;
      saved, durable', lost', trace :=
        SaveStep(sys, cfg, id, gen, value, claims, claimed, start.content, accepted, durable, lost);
      if saved {
        checkpoint' := new Dictionary(value);
        accepted' := accepted + [value];
      }
    }
  }

  /** A step of the collector, added to the run so far. */
  method CollectorRound(sys: System, cfg: Config, id: nat, gen: nat, start: Dictionary, checkpoint: Dictionary,
                        held: set<Dictionary>, ghost claims: nat, ghost claimed: Checkpoint,
                        ghost accepted: seq<Checkpoint>, ghost durable: seq<Checkpoint>, ghost lost: seq<Checkpoint>,
                        ghost s0: State, ghost trace: seq<Label>)
    returns (checkpoint': Dictionary, held': set<Dictionary>, ghost accepted': seq<Checkpoint>,
             ghost durable': seq<Checkpoint>, ghost lost': seq<Checkpoint>, ghost trace': seq<Label>)
    requires start in held && Ran(cfg, s0, trace, sys, id)
    requires Collecting(sys.workers[id], claims, gen, claimed, start.content, accepted, durable, lost)
    requires Variable(checkpoint, start, held, accepted)
    modifies sys, sys.store, held
    ensures Ran(cfg, s0, trace', sys, id)
    ensures Collecting(sys.workers[id], claims, gen, claimed, start.content, accepted', durable', lost')
    ensures Variable(checkpoint', start, held', accepted')
    ensures checkpoint' == checkpoint || fresh(checkpoint')
    ensures held <= held' && fresh(held' - held)
  {
    ghost var more;
    checkpoint', held', accepted', durable', lost', more :=
      CollectorStep(sys, cfg, id, gen, start, checkpoint, held, claims, claimed, accepted, durable, lost);
    ExecConcat(cfg, s0, trace, more);
    trace' := trace + more;
  }

  /** The collector of a slice: any finite sequence of in-place changes to dictionaries it can
      reach, new dictionaries, and save attempts. It starts with a reference to the very object the
      slice calls `checkpoint`; an accepted save makes the slice's variable a fresh copy. */
  method Collect(sys: System, cfg: Config, id: nat, gen: nat, start: Dictionary)
    returns (checkpoint: Dictionary, ghost accepted: seq<Checkpoint>, ghost durable: seq<Checkpoint>,
             ghost lost: seq<Checkpoint>, ghost trace: seq<Label>)
    requires id in sys.workers
    requires sys.workers[id].pc == Slice(gen, Progress(start.content, start.content, None, None, false))
    modifies sys, sys.store, start
    ensures Ran(cfg, old(sys.View()), trace, sys, id)
    ensures Collecting(sys.workers[id], old(sys.workers[id].claims), gen, old(start.content), start.content,
                       accepted, durable, lost)
    ensures HandedOver(sys.workers[id].pc.progress) == checkpoint.content
    ensures if accepted == [] then checkpoint == start else fresh(checkpoint)
  {
    ghost var s0 := sys.View();
    ghost var claims, claimed := sys.workers[id].claims, start.content;
    checkpoint, accepted, durable, lost, trace := start, [], [], [], [];
    var held: set<Dictionary> := {start};     // what the collector can reach
    var steps: nat := *;
    while steps > 0
      invariant Ran(cfg, s0, trace, sys, id)
      invariant Collecting(sys.workers[id], claims, gen, claimed, start.content, accepted, durable, lost)
      invariant Variable(checkpoint, start, held, accepted)
      invariant start in held && fresh(held - {start})
      invariant checkpoint == start || fresh(checkpoint)
      invariant accepted != [] ==> checkpoint != start
    {
      steps := steps - 1;
      checkpoint, held, accepted, durable, lost, trace :=
        CollectorRound(sys, cfg, id, gen, start, checkpoint, held, claims, claimed, accepted, durable, lost, s0, trace);
    }
  }

  /** The branch of a slice whose collector wants to be resumed. */
  method DeferSlice(sys: System, cfg: Config, id: nat, gen: nat, checkpoint: Checkpoint, report: Report)
    returns (failed: bool, ghost trace: seq<Label>)
    requires id in sys.workers
    requires var pc := sys.workers[id].pc;
             pc.SliceDefer? && pc.gen == gen && HandedOver(pc.progress) == checkpoint && pc.report == report
    modifies sys, sys.store
    ensures Ran(cfg, old(sys.View()), trace, sys, id)
    ensures sys.workers[id].pc == if failed then SliceError(gen) else Done
    ensures sys.workers[id].claims == old(sys.workers[id].claims)
  {
    ghost var s0 := sys.View();
    var delay := SliceDelay(report);
    var answer, ls := sys.Defer(cfg, id, gen, checkpoint, report, delay);
    trace := ls;
    failed := answer == Raised;
    if answer == Yes && delay == 0 {
      ghost var s := sys.View();
      answer, ls := sys.Own(cfg, id, Dispatch);
      Then(cfg, s0, trace, s, ls, sys.View(), id, answer);
      trace := trace + ls;
    }
  }

  /** Hook and completion of a slice whose claim was current. */
  method FollowUpSlice(sys: System, cfg: Config, id: nat, gen: nat, report: Report)
    returns (failed: bool, ghost trace: seq<Label>)
    requires id in sys.workers
    requires sys.workers[id].pc == if cfg.hooked then SliceHook(gen, report) else SliceComplete(gen, report)
    modifies sys, sys.store
    ensures Ran(cfg, old(sys.View()), trace, sys, id)
    ensures sys.workers[id].pc == if failed then SliceError(gen) else Done
    ensures sys.workers[id].claims == old(sys.workers[id].claims)
  {
    ghost var s0 := sys.View();
    trace := [];
    if cfg.hooked {
      var raises: bool := *;
      var answer, ls := sys.Own(cfg, id, Hook(raises));
      trace := ls;
      if raises { return true, trace; }
    }
    ghost var s := sys.View();
    var answer, ls := sys.CompleteResumable(cfg, id, gen, report);
    Then(cfg, s0, trace, s, ls, sys.View(), id, answer);
    trace := trace + ls;
    failed := answer == Raised;
  }

  /** The branch of a slice whose collector is finished: fence, hook, completion. */
  method CompleteSlice(sys: System, cfg: Config, id: nat, gen: nat, report: Report)
    returns (failed: bool, ghost trace: seq<Label>)
    requires id in sys.workers && sys.workers[id].pc == SliceCheck(gen, report)
    modifies sys, sys.store
    ensures Ran(cfg, old(sys.View()), trace, sys, id)
    ensures sys.workers[id].pc == if failed then SliceError(gen) else Done
    ensures sys.workers[id].claims == old(sys.workers[id].claims)
  {
    ghost var s0 := sys.View();
    var answer, ls := sys.IsCurrent(cfg, id, gen);
    trace := ls;
    if answer != Yes { return answer == Raised, trace; }
    ghost var more;
    failed, more := FollowUpSlice(sys, cfg, id, gen, report);
    ExecConcat(cfg, s0, trace, more);
    trace := trace + more;
  }

  /** One slice. `handed` is the checkpoint it passes to the deferral, if it gets that far; `passed` is
      what the dictionary first given to the collector holds in the end; `accepted` are the saves it was
      told were accepted, `durable` those that took effect, `lost` the durable ones since the last
      accepted one.

      What is handed over is the last durable save (the claimed checkpoint before any) exactly when a
      save was accepted or the dictionary is unchanged, if nothing was lost since; and otherwise
      exactly when it happens to equal the last one lost. */
  method RunGithubSlice(sys: System, cfg: Config, id: nat, job: Job)
    returns (ghost trace: seq<Label>, ghost handed: Option<Checkpoint>, ghost accepted: seq<Checkpoint>,
             ghost durable: seq<Checkpoint>, ghost lost: seq<Checkpoint>, ghost passed: Checkpoint)
    requires id in sys.workers
    requires sys.workers[id].pc ==
             Slice(job.attemptCount, Progress(job.checkpoint, job.checkpoint, None, None, false))
    modifies sys, sys.store
    ensures Ran(cfg, old(sys.View()), trace, sys, id)
    ensures sys.workers[id].pc.Done? && sys.workers[id].claims == old(sys.workers[id].claims)
    ensures handed.Some? ==> handed.value == LastOf(accepted).GetOr(passed)
    ensures |lost| <= |durable| && lost == durable[|durable| - |lost|..]
    ensures handed.Some? && lost == [] ==>
              (handed.value == LastOf(durable).GetOr(job.checkpoint) <==> accepted != [] || passed == job.checkpoint)
    ensures handed.Some? && lost != [] ==>
              (handed.value == LastOf(durable).GetOr(job.checkpoint) <==> handed.value == lost[|lost| - 1])
  {
    ghost var s0 := sys.View();
    var start := new Dictionary(job.checkpoint);
    var checkpoint;
    checkpoint, accepted, durable, lost, trace := Collect(sys, cfg, id, job.attemptCount, start);
    passed := start.content;
    ghost var more;
    handed, more := EndSlice(sys, cfg, id, job.attemptCount, checkpoint.content);
    ExecConcat(cfg, s0, trace, more);
    trace := trace + more;
  }

  /** The rest of a slice once its collector ends, by an exception or with a report. */
  method EndSlice(sys: System, cfg: Config, id: nat, gen: nat, checkpoint: Checkpoint)
    returns (ghost handed: Option<Checkpoint>, ghost trace: seq<Label>)
    requires id in sys.workers && sys.workers[id].pc.Slice? && sys.workers[id].pc.gen == gen
    requires HandedOver(sys.workers[id].pc.progress) == checkpoint
    modifies sys, sys.store
    ensures Ran(cfg, old(sys.View()), trace, sys, id)
    ensures sys.workers[id].pc.Done? && sys.workers[id].claims == old(sys.workers[id].claims)
    ensures handed.Some? ==> handed.value == checkpoint
  {
    ghost var s0 := sys.View();
    handed := None;
    var raises: bool := *;
    var report: Report := *;
    var answer, ls := sys.Own(cfg, id, if raises then CollectRaise else CollectReturn(report));
    trace := ls;
    var failed := raises;
    ghost var more := [];
    if !raises && report.resumePending {
      handed := Some(checkpoint);
      failed, more := DeferSlice(sys, cfg, id, gen, checkpoint, report);
    } else if !raises {
      failed, more := CompleteSlice(sys, cfg, id, gen, report);
    }
    ExecConcat(cfg, s0, trace, more);
    trace := trace + more;
    if failed {
      more := HandleSliceError(sys, cfg, id, gen);
      ExecConcat(cfg, s0, trace, more);
      trace := trace + more;
    }
  }

  /** Hook and unfenced completion of a collection outside a slice. */
  method FollowUpPlain(sys: System, cfg: Config, id: nat, gen: nat, kind: CollectionKind, report: Report)
    returns (failed: bool, ghost trace: seq<Label>)
    requires id in sys.workers
    requires sys.workers[id].pc == if cfg.hooked then PlainHook(gen, kind, report) else PlainComplete(gen, kind, report)
    modifies sys, sys.store
    ensures Ran(cfg, old(sys.View()), trace, sys, id)
    ensures sys.workers[id].pc == if failed then OuterError(cfg, gen, kind) else Done
    ensures sys.workers[id].claims == old(sys.workers[id].claims)
  {
    ghost var s0 := sys.View();
    trace := [];
    if cfg.hooked {
      var raises: bool := *;
      var answer, ls := sys.Own(cfg, id, Hook(raises));
      trace := ls;
      if raises { return true, trace; }
    }
    ghost var s := sys.View();
    var answer, ls := sys.Complete(cfg, id, report);
    Then(cfg, s0, trace, s, ls, sys.View(), id, answer);
    trace := trace + ls;
    failed := answer == Raised;
  }

  /** A collection outside a slice, up to the unfenced completion. */
  method RunPlain(sys: System, cfg: Config, id: nat, gen: nat, kind: CollectionKind)
    returns (failed: bool, ghost trace: seq<Label>)
    requires id in sys.workers && sys.workers[id].pc == Plain(gen, kind)
    modifies sys, sys.store
    ensures Ran(cfg, old(sys.View()), trace, sys, id)
    ensures sys.workers[id].pc == if failed then OuterError(cfg, gen, kind) else Done
    ensures sys.workers[id].claims == old(sys.workers[id].claims)
  {
    ghost var s0 := sys.View();
    var raises: bool := *;
    var report: Report := *;
    var answer, ls := sys.Own(cfg, id, if raises then CollectRaise else CollectReturn(report));
    trace := ls;
    if raises { return true, trace; }
    ghost var more;
    failed, more := FollowUpPlain(sys, cfg, id, gen, kind, report);
    ExecConcat(cfg, s0, trace, more);
    trace := trace + more;
  }

  /** The handler of `run_durable_collection_job`; `again` asks for another attempt. */
  method HandleError(sys: System, cfg: Config, id: nat, gen: nat, kind: CollectionKind)
    returns (again: bool, ghost trace: seq<Label>)
    requires id in sys.workers && sys.workers[id].pc == OuterError(cfg, gen, kind)
    modifies sys, sys.store
    ensures Ran(cfg, old(sys.View()), trace, sys, id)
    ensures sys.workers[id].claims == old(sys.workers[id].claims)
    ensures sys.workers[id].pc == if again && sys.workers[id].claims < cfg.maxAttempts then Idle else Done
  {
    ghost var s0 := sys.View();
    again := false;
    if cfg.resumable && kind == GithubSource {
      var current, ls := sys.IsCurrent(cfg, id, gen);
      trace := ls;
      if current != Yes { return; }
      ghost var s := sys.View();
      var answer, more := sys.RetryResumable(cfg, id, gen);
      Then(cfg, s0, trace, s, more, sys.View(), id, answer);
      trace := trace + more;
    } else {
      var answer, ls := sys.RecordFailure(cfg, id);
      trace := ls;
      again := answer == Yes;
    }
  }

  /** The whole invocation. Its steps, woven with everything else that happened meanwhile, are a
      run of the machine that leaves the container finished after at most `max_attempts` claims. */
  method RunDurableCollectionJob(sys: System, cfg: Config, id: nat) returns (accepted: bool, ghost trace: seq<Label>)
    requires id in sys.workers && sys.workers[id].pc.Idle? && sys.workers[id].claims == 0
    modifies sys, sys.store
    ensures Ran(cfg, old(sys.View()), trace, sys, id)
    ensures accepted == (1 <= cfg.maxAttempts <= 5)
    ensures if accepted then sys.workers[id].pc.Done? && sys.workers[id].claims <= cfg.maxAttempts
            else sys.View() == old(sys.View())
  {
    ghost var s0 := sys.View();
    trace := [];
    if !(1 <= cfg.maxAttempts <= 5) { return false, trace; }
    accepted := true;
    var attempt := 0;
    while attempt < cfg.maxAttempts
      invariant 0 <= attempt <= cfg.maxAttempts
      invariant Ran(cfg, s0, trace, sys, id)
      invariant sys.workers[id].claims == attempt
      invariant sys.workers[id].pc == if attempt < cfg.maxAttempts then Idle else Done
    {
      attempt := attempt + 1;
      ghost var s := sys.View();
      var answer, ls := sys.Claim(cfg, id);
      Then(cfg, s0, trace, s, ls, sys.View(), id, answer);
      trace := trace + ls;
      if !answer.Granted? { return; }
      var job := answer.job;
      var gen, kind := job.attemptCount, job.kind;
      var collector: CollectorChoice := *;
      s := sys.View();
      answer, ls := sys.Lookup(cfg, id, kind, collector);
      Then(cfg, s0, trace, s, ls, sys.View(), id, answer);
      trace := trace + ls;
      var failed := true;
      if answer == Yes {
        if cfg.resumable && kind == GithubSource && collector == Resumable {
          ghost var more, _, _, _, _, _ := RunGithubSlice(sys, cfg, id, job);
          ExecConcat(cfg, s0, trace, more);
          trace := trace + more;
          return;
        }
        ghost var more;
        failed, more := RunPlain(sys, cfg, id, gen, kind);
        ExecConcat(cfg, s0, trace, more);
        trace := trace + more;
      }
      if !failed { return; }
      var again;
      ghost var more;
      again, more := HandleError(sys, cfg, id, gen, kind);
      ExecConcat(cfg, s0, trace, more);
      trace := trace + more;
      if !again { return; }
    }
  }
}
