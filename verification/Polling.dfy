/** Waiting for an accepted operation: a bounded polling loop against a declarative reading of the
    responses it gets, and the collection freshness test it is used with. */
module Polling {
  import opened Options

  /** One fetch: it failed, or it gave the current state. */
  datatype Response<T> = Failed | Got(current: T)

  datatype Outcome<T> = Returned(current: T) | RefreshFailed | StoppedEarly | TimedOut

  /** Response `i` ends the wait: it is a state that is no longer running. */
  predicate DecisiveAt<T>(rs: seq<Response<T>>, i: nat, isRunning: T -> bool) {
    i < |rs| && rs[i].Got? && !isRunning(rs[i].current)
  }

  /** Response `i` is the last of at least `bound` failures in a row. */
  predicate BurstAt<T>(rs: seq<Response<T>>, i: nat, bound: int) {
    && i < |rs| && rs[i].Failed? && bound <= i + 1
    && forall j :: 0 <= j < |rs| && i - bound < j <= i ==> rs[j].Failed?
  }

  predicate UndecidedBefore<T>(rs: seq<Response<T>>, n: nat, bound: int, isRunning: T -> bool) {
    forall i :: 0 <= i < n ==> !DecisiveAt(rs, i, isRunning) && !BurstAt(rs, i, bound)
  }

  /** What the wait comes to, read off the responses: the first decisive state or failure burst
      within the attempts settles it, and without one it times out. */
  ghost predicate Settles<T(!new)>(
    rs: seq<Response<T>>, attempts: int, bound: int, isRunning: T -> bool, isComplete: T -> bool,
    outcome: Outcome<T>, fetches: nat)
  {
    if outcome == TimedOut then
      fetches == (if attempts < 0 then 0 else attempts) && UndecidedBefore(rs, fetches, bound, isRunning)
    else
      && 0 < fetches <= attempts && fetches <= |rs|
      && UndecidedBefore(rs, fetches - 1, bound, isRunning)
      && (match outcome
          case Returned(current) =>
            DecisiveAt(rs, fetches - 1, isRunning) && current == rs[fetches - 1].current && isComplete(current)
          case StoppedEarly =>
            DecisiveAt(rs, fetches - 1, isRunning) && !isComplete(rs[fetches - 1].current)
          case RefreshFailed => BurstAt(rs, fetches - 1, bound))
  }

  method WaitForAcceptedOperation<T(!new)>(
    rs: seq<Response<T>>, attempts: int, bound: int, isRunning: T -> bool, isComplete: T -> bool)
    returns (outcome: Outcome<T>, fetches: nat)
    requires attempts <= |rs|
    ensures Settles(rs, attempts, bound, isRunning, isComplete, outcome, fetches)
    ensures fetches <= |rs| && (attempts >= 0 ==> fetches <= attempts)
  {
    var consecutiveFailures := 0;
    fetches := 0;
    while fetches < attempts
      invariant fetches <= |rs| && (fetches == 0 || fetches <= attempts)
      invariant 0 <= consecutiveFailures <= fetches
      invariant forall j :: fetches - consecutiveFailures <= j < fetches ==> rs[j].Failed?
      invariant consecutiveFailures < fetches ==> rs[fetches - consecutiveFailures - 1].Got?
      invariant UndecidedBefore(rs, fetches, bound, isRunning)
    {
      var response := rs[fetches];
      fetches := fetches + 1;
      if response.Failed? {
        consecutiveFailures := consecutiveFailures + 1;
        if consecutiveFailures < bound { continue; }
        return RefreshFailed, fetches;
      }
      consecutiveFailures := 0;
      if isRunning(response.current) { continue; }
      if isComplete(response.current) { return Returned(response.current), fetches; }
      return StoppedEarly, fetches;
    }
    return TimedOut, fetches;
  }

  /** The declarative reading has one answer: the loop cannot return anything else. */
  lemma SettlesOneWay<T(!new)>(
    rs: seq<Response<T>>, attempts: int, bound: int, isRunning: T -> bool, isComplete: T -> bool,
    o: Outcome<T>, n: nat, o': Outcome<T>, n': nat)
    requires Settles(rs, attempts, bound, isRunning, isComplete, o, n)
    requires Settles(rs, attempts, bound, isRunning, isComplete, o', n')
    ensures o == o' && n == n'
  {
    EndsWhereItSettles(rs, attempts, bound, isRunning, isComplete, o, n);
    EndsWhereItSettles(rs, attempts, bound, isRunning, isComplete, o', n');
  }

  lemma EndsWhereItSettles<T(!new)>(
    rs: seq<Response<T>>, attempts: int, bound: int, isRunning: T -> bool, isComplete: T -> bool, o: Outcome<T>, n: nat)
    requires Settles(rs, attempts, bound, isRunning, isComplete, o, n)
    ensures o != TimedOut ==>
              0 < n <= attempts && (DecisiveAt(rs, n - 1, isRunning) || BurstAt(rs, n - 1, bound))
    ensures UndecidedBefore(rs, if o == TimedOut then n else n - 1, bound, isRunning)
  {
  }

  // ------------------------------------------------------------- collection results

  datatype Kind = Deployment | Runtime | Evidence | Source

  /** The last result of one kind: when it completed, if it says so. */
  datatype Collected = Collected(completedAt: Option<string>)

  datatype Connection = Connection(
    running: set<Kind>,
    results: map<Kind, Collected>)

  predicate Running(c: Connection, kinds: seq<Kind>) {
    exists k :: 0 <= k < |kinds| && kinds[k] in c.running
  }

  function CompletedAt(c: Connection, kind: Kind): Option<string> {
    if kind in c.results then c.results[kind].completedAt else None
  }

  predicate Fresh(previous: Connection, current: Connection, kind: Kind) {
    var at := CompletedAt(current, kind);
    at.Some? && at.value != "" && at != CompletedAt(previous, kind)
  }

  predicate ResultsChanged(previous: Connection, current: Connection, kinds: seq<Kind>) {
    kinds != [] && forall k :: 0 <= k < |kinds| ==> Fresh(previous, current, kinds[k])
  }

  /** The snapshot shows a completion of the kind that the earlier one does not. */
  predicate NewlyCompleted(previous: Connection, current: Connection, kind: Kind) {
    && kind in current.results && current.results[kind].completedAt.Some?
    && current.results[kind].completedAt.value != ""
    && !(kind in previous.results && previous.results[kind].completedAt == current.results[kind].completedAt)
  }

  /** No selected kind is running in what the fetch gave. */
  predicate Idle(r: Response<Connection>, kinds: seq<Kind>) {
    r.Got? && forall k :: 0 <= k < |kinds| ==> kinds[k] !in r.current.running
  }

  /** Waiting for the collection just accepted hands back the first snapshot in which no selected kind
      runs, if every one has completed at another time than before; a result left over from before
      never counts, and with no kind selected the wait never succeeds. It gives up on a snapshot that is
      idle without that, after a full burst of failures, or when the attempts are used up. */
  method WaitForCollections(rs: seq<Response<Connection>>, attempts: int, bound: int, previous: Connection,
                            kinds: seq<Kind>)
    returns (outcome: Outcome<Connection>, fetches: nat)
    requires attempts <= |rs|
    ensures outcome.Returned? || outcome.StoppedEarly? ==>
              && 0 < fetches <= attempts && Idle(rs[fetches - 1], kinds)
              && (outcome.Returned? ==> rs[fetches - 1] == Got(outcome.current))
              && (outcome.Returned? <==>
                    kinds != []
                    && forall k :: 0 <= k < |kinds| ==> NewlyCompleted(previous, rs[fetches - 1].current, kinds[k]))
    ensures outcome.RefreshFailed? <==>
              exists i :: 0 <= i < attempts && BurstAt(rs, i, bound)
                && forall j :: 0 <= j < i ==> !Idle(rs[j], kinds) && !BurstAt(rs, j, bound)
    ensures outcome.RefreshFailed? ==> 0 < fetches <= attempts && BurstAt(rs, fetches - 1, bound)
    ensures outcome.TimedOut? ==> fetches == if attempts < 0 then 0 else attempts
    ensures forall i :: 0 <= i < (if outcome.TimedOut? then fetches else fetches - 1) ==>
              !Idle(rs[i], kinds) && !BurstAt(rs, i, bound)
  {
    var isRunning := (c: Connection) => Running(c, kinds);
    outcome, fetches := WaitForAcceptedOperation(rs, attempts, bound, isRunning,
                                                 c => ResultsChanged(previous, c, kinds));
    forall i: nat ensures i < |rs| ==> (Idle(rs[i], kinds) <==> DecisiveAt(rs, i, isRunning)) { }
    forall c, kind ensures Fresh(previous, c, kind) <==> NewlyCompleted(previous, c, kind) { }
    if outcome.RefreshFailed? { assert BurstAt(rs, fetches - 1, bound); }
  }
}
