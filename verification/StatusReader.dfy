/** The status reader behind a connection panel and the hook that owns it: one request at a time per
    reader, a new reader per selection, and nothing of an abandoned selection once the effect of the next
    has run. */
module StatusReader {
  import opened Options

  /** The variables of one reader, and the polling flag beside it. */
  datatype Reader = Reader(identity: string, stopped: bool, pending: Option<nat>, polling: bool)

  predicate Starts(r: Reader) { !r.stopped && r.pending == None }

  /** A call of `refresh` when the next request would be number `n`. */
  function Refreshed(r: Reader, n: nat): Reader {
    if Starts(r) then r.(pending := Some(n)) else r
  }

  /** What a request ends with; a result says whether the operation is still running. */
  datatype Outcome = Result(running: bool) | Failure

  function Heard(r: Reader, outcome: Outcome): Reader {
    if !r.stopped && outcome.Result? then r.(polling := outcome.running) else r
  }

  /** The closure a selection gets: `refresh`, `stop` and the callbacks of its request. */
  class SharedStatusReader {
    const identity: string
    var stopped: bool
    var pending: Option<nat>
    var polling: bool

    function Abstract(): Reader
      reads this
    {
      Reader(identity, stopped, pending, polling)
    }

    constructor (identity: string)
      ensures Abstract() == Reader(identity, false, None, false)
    {
      this.identity := identity;
      stopped, pending, polling := false, None, false;
    }

    method Refresh(next: nat) returns (started: bool)
      modifies this
      ensures Abstract() == Refreshed(old(Abstract()), next) && started == Starts(old(Abstract()))
    {
      if stopped { return false; }
      if pending.Some? { return false; }
      pending := Some(next);
      return true;
    }

    method Stop()
      modifies this
      ensures Abstract() == old(Abstract()).(stopped := true)
    {
      stopped := true;
    }

    method OnOutcome(outcome: Outcome) returns (reported: bool)
      modifies this
      ensures Abstract() == Heard(old(Abstract()), outcome) && reported == !old(stopped)
    {
      if stopped { return false; }
      if outcome.Result? { polling := outcome.running; }
      return true;
    }

    method Finally()
      modifies this
      ensures Abstract() == old(Abstract()).(pending := None)
    {
      pending := None;
    }
  }

  // ------------------------------------------------------------- hook and requests

  /** `Scheduled`: behind the first microtask; `Answered`: the callback ran, `finally` has not. */
  datatype Phase = Scheduled | Outstanding | Answered | Finished

  datatype Request = Request(reader: nat, phase: Phase)

  /** A call of the accept or reject callback: the selection the callbacks were rendered for, and the
      one whose effect ran last. */
  datatype Report = Report(request: nat, reader: nat, outcome: Outcome, rendered: string, committed: string)

  /** A render puts new callbacks in place at once; its effect, which stops the old reader and opens
      the next, runs later. The empty identity stands for no selection. */
  datatype State = State(
    rendered: string,
    committed: string,
    visible: bool,
    current: Option<nat>,
    readers: seq<Reader>,
    requests: seq<Request>,
    reports: seq<Report>)

  datatype Event =
    | Render(identity: string)
    | Effect
    | Visibility(visible: bool)
    | Focus
    | Timer
    | Trigger
    | Issue(n: nat)
    | Answer(n: nat, outcome: Outcome)
    | Settle(n: nat)

  predicate Possible(s: State, e: Event) {
    match e
    case Effect => s.rendered != s.committed
    case Issue(n) => n < |s.requests| && s.requests[n].phase.Scheduled?
    case Answer(n, _) => n < |s.requests| && s.requests[n].phase.Outstanding?
    case Settle(n) => n < |s.requests| && s.requests[n].phase.Answered?
    case _ => true
  }

  predicate InRange(s: State) {
    && (s.current.Some? ==> s.current.value < |s.readers|)
    && forall n :: 0 <= n < |s.requests| ==> s.requests[n].reader < |s.readers|
  }

  function Refresh(s: State): State
    requires InRange(s)
    ensures InRange(Refresh(s))
  {
    if s.current == None || !Starts(s.readers[s.current.value]) then s
    else
      var r := s.current.value;
      s.(readers := s.readers[r := Refreshed(s.readers[r], |s.requests|)],
         requests := s.requests + [Request(r, Scheduled)])
  }

  function Stop(s: State): State
    requires InRange(s)
    ensures InRange(Stop(s))
  {
    if s.current == None then s
    else
      var r := s.current.value;
      s.(current := None, readers := s.readers[r := s.readers[r].(stopped := true)])
  }

  function Open(s: State): State
    requires InRange(s)
    ensures InRange(Open(s))
  {
    if s.rendered == "" then s.(committed := s.rendered)
    else s.(committed := s.rendered, current := Some(|s.readers|),
            readers := s.readers + [Reader(s.rendered, false, None, false)])
  }

  function Hear(s: State, n: nat, outcome: Outcome): State
    requires InRange(s) && n < |s.requests|
    ensures InRange(Hear(s, n, outcome))
  {
    var r := s.requests[n].reader;
    s.(readers := s.readers[r := Heard(s.readers[r], outcome)],
       requests := s.requests[n := Request(r, Answered)],
       reports := if s.readers[r].stopped then s.reports
                  else s.reports + [Report(n, r, outcome, s.rendered, s.committed)])
  }

  function Step(s: State, e: Event): State
    requires InRange(s) && Possible(s, e)
    ensures InRange(Step(s, e))
  {
    match e
    case Render(identity) => s.(rendered := identity)
    case Effect => Refresh(Open(Stop(s)))
    case Visibility(visible) => if visible then Refresh(s.(visible := visible)) else s.(visible := visible)
    case Focus => if s.visible then Refresh(s) else s
    case Timer =>
      if s.current.Some? && s.readers[s.current.value].polling && s.visible then Refresh(s) else s
    case Trigger => Refresh(s)
    case Issue(n) => s.(requests := s.requests[n := s.requests[n].(phase := Outstanding)])
    case Answer(n, outcome) => Hear(s, n, outcome)
    case Settle(n) =>
      var r := s.requests[n].reader;
      s.(readers := s.readers[r := s.readers[r].(pending := None)],
         requests := s.requests[n := s.requests[n].(phase := Finished)])
  }

  function Run(s: State, events: seq<Event>): (r: Option<State>)
    requires InRange(s)
    ensures r.Some? ==> InRange(r.value)
    decreases |events|
  {
    if events == [] then Some(s)
    else if Possible(s, events[0]) then Run(Step(s, events[0]), events[1..])
    else None
  }

  const START := State("", "", true, None, [], [], [])

  // ------------------------------------------------------------------ invariants

  /** The reader in force is the only one not stopped, and it reads the identity last committed. */
  predicate OneOpen(identity: string, current: Option<nat>, readers: seq<Reader>) {
    && (identity == "" <==> current == None)
    && (forall r :: 0 <= r < |readers| ==> (readers[r].stopped <==> current != Some(r)))
    && (current.Some? ==> current.value < |readers| && readers[current.value].identity == identity)
  }

  predicate Known(readers: seq<Reader>, requests: seq<Request>) {
    forall n :: 0 <= n < |requests| ==> requests[n].reader < |readers|
  }

  /** A reader's `pending` is its one unfinished request. */
  predicate SingleFlight(readers: seq<Reader>, requests: seq<Request>) {
    && Known(readers, requests)
    && (forall n :: 0 <= n < |requests| && !requests[n].phase.Finished? ==>
          readers[requests[n].reader].pending == Some(n))
    && (forall r :: 0 <= r < |readers| && readers[r].pending.Some? ==>
          && readers[r].pending.value < |requests|
          && requests[readers[r].pending.value].reader == r
          && !requests[readers[r].pending.value].phase.Finished?)
  }

  predicate Over(p: Phase) { p.Answered? || p.Finished? }

  predicate Reported(reports: seq<Report>, n: nat) {
    exists k :: 0 <= k < |reports| && reports[k].request == n
  }

  predicate ReportFits(readers: seq<Reader>, requests: seq<Request>, report: Report) {
    && report.request < |requests| && requests[report.request].reader == report.reader < |readers|
    && Over(requests[report.request].phase)
    && report.committed == readers[report.reader].identity != ""
  }

  predicate ReportsFit(readers: seq<Reader>, requests: seq<Request>, reports: seq<Report>) {
    && Known(readers, requests)
    && (forall k :: 0 <= k < |reports| ==> ReportFits(readers, requests, reports[k]))
    && (forall j, k :: 0 <= j < k < |reports| ==> reports[j].request != reports[k].request)
    && (forall n :: 0 <= n < |requests| && Over(requests[n].phase) ==>
          Reported(reports, n) || readers[requests[n].reader].stopped)
  }

  /** Whether the last result a reader accepted was still running. */
  function LastRunning(reports: seq<Report>, reader: nat): bool {
    if reports == [] then false
    else
      var last := reports[|reports| - 1];
      if last.reader == reader && last.outcome.Result? then last.outcome.running
      else LastRunning(reports[..|reports| - 1], reader)
  }

  predicate PollingFits(readers: seq<Reader>, reports: seq<Report>) {
    forall r :: 0 <= r < |readers| ==> readers[r].polling == LastRunning(reports, r)
  }

  predicate Sound(s: State) {
    && SingleFlight(s.readers, s.requests)
    && OneOpen(s.committed, s.current, s.readers)
    && ReportsFit(s.readers, s.requests, s.reports)
    && PollingFits(s.readers, s.reports)
  }

  /** No report is added: readers keep their identity and stay stopped, requests keep their reader
      and are over when they were. */
  lemma ReportsCarry(readers: seq<Reader>, requests: seq<Request>, reports: seq<Report>,
                     readers': seq<Reader>, requests': seq<Request>)
    requires ReportsFit(readers, requests, reports) && Known(readers', requests')
    requires |readers| <= |readers'| && |requests| <= |requests'|
    requires forall r :: 0 <= r < |readers| ==>
               readers'[r].identity == readers[r].identity && (readers[r].stopped ==> readers'[r].stopped)
    requires forall n :: 0 <= n < |requests| ==>
               requests'[n].reader == requests[n].reader && (Over(requests'[n].phase) <==> Over(requests[n].phase))
    requires forall n :: |requests| <= n < |requests'| ==> !Over(requests'[n].phase)
    ensures ReportsFit(readers', requests', reports)
  {
    forall k | 0 <= k < |reports| ensures ReportFits(readers', requests', reports[k]) {
      assert ReportFits(readers, requests, reports[k]);
    }
  }

  lemma ReportsGrow(readers: seq<Reader>, requests: seq<Request>, reports: seq<Report>, n: nat, report: Report)
    requires ReportsFit(readers, requests, reports)
    requires n < |requests| && requests[n].phase.Outstanding? && report.request == n
    requires report.reader == requests[n].reader
    requires !readers[report.reader].stopped && report.committed == readers[report.reader].identity != ""
    ensures ReportsFit(readers, requests[n := Request(report.reader, Answered)], reports + [report])
  {
    var requests', reports' := requests[n := Request(report.reader, Answered)], reports + [report];
    forall k | 0 <= k < |reports'| ensures ReportFits(readers, requests', reports'[k]) {
      if k < |reports| { assert ReportFits(readers, requests, reports[k]); }
    }
    forall j, k | 0 <= j < k < |reports'| ensures reports'[j].request != reports'[k].request {
      assert ReportFits(readers, requests, reports[j]);
    }
    forall m | 0 <= m < |requests'| && Over(requests'[m].phase)
      ensures Reported(reports', m) || readers[requests'[m].reader].stopped
    {
      if m == n {
        assert reports'[|reports|].request == n;
      } else if Reported(reports, m) {
        var k :| 0 <= k < |reports| && reports[k].request == m;
        assert reports'[k].request == m;
      }
    }
  }

  lemma RefreshFlight(readers: seq<Reader>, requests: seq<Request>, r: nat)
    requires SingleFlight(readers, requests) && r < |readers| && readers[r].pending == None
    ensures SingleFlight(readers[r := readers[r].(pending := Some(|requests|))], requests + [Request(r, Scheduled)])
  {
    var readers' := readers[r := readers[r].(pending := Some(|requests|))];
    var requests' := requests + [Request(r, Scheduled)];
    forall n | 0 <= n < |requests'| && !requests'[n].phase.Finished?
      ensures readers'[requests'[n].reader].pending == Some(n)
    {
      if n < |requests| { assert requests[n].reader != r; }
    }
  }

  lemma RefreshIsSound(s: State)
    requires Sound(s)
    ensures Sound(Refresh(s))
  {
    var s' := Refresh(s);
    if s.current.Some? && Starts(s.readers[s.current.value]) {
      var r := s.current.value;
      RefreshFlight(s.readers, s.requests, r);
      RefreshReports(s.readers, s.requests, s.reports, r);
      RefreshPolling(s.readers, s.reports, r, |s.requests|);
    }
  }

  lemma RefreshReports(readers: seq<Reader>, requests: seq<Request>, reports: seq<Report>, r: nat)
    requires ReportsFit(readers, requests, reports) && r < |readers|
    ensures ReportsFit(readers[r := readers[r].(pending := Some(|requests|))],
                       requests + [Request(r, Scheduled)], reports)
  {
    ReportsCarry(readers, requests, reports,
                 readers[r := readers[r].(pending := Some(|requests|))], requests + [Request(r, Scheduled)]);
  }

  lemma RefreshPolling(readers: seq<Reader>, reports: seq<Report>, r: nat, n: nat)
    requires PollingFits(readers, reports) && r < |readers|
    ensures PollingFits(readers[r := readers[r].(pending := Some(n))], reports)
  {
  }

  lemma {:induction false} NoRunning(reports: seq<Report>, reader: nat)
    requires forall k :: 0 <= k < |reports| ==> reports[k].reader != reader
    ensures !LastRunning(reports, reader)
  {
    if reports != [] { NoRunning(reports[..|reports| - 1], reader); }
  }

  lemma StopIsSound(s: State)
    requires Sound(s)
    ensures var s' := Stop(s);
            && SingleFlight(s'.readers, s'.requests) && ReportsFit(s'.readers, s'.requests, s'.reports)
            && PollingFits(s'.readers, s'.reports) && s'.current == None
            && forall r :: 0 <= r < |s'.readers| ==> s'.readers[r].stopped
  {
    var s' := Stop(s);
    ReportsCarry(s.readers, s.requests, s.reports, s'.readers, s'.requests);
  }

  lemma OpenIsSound(s: State)
    requires SingleFlight(s.readers, s.requests) && ReportsFit(s.readers, s.requests, s.reports)
    requires PollingFits(s.readers, s.reports) && s.current == None
    requires forall r :: 0 <= r < |s.readers| ==> s.readers[r].stopped
    ensures Sound(Open(s))
  {
    if s.rendered != "" {
      var s' := Open(s);
      forall k | 0 <= k < |s.reports| ensures s.reports[k].reader != |s.readers| {
        assert ReportFits(s.readers, s.requests, s.reports[k]);
      }
      NoRunning(s.reports, |s.readers|);
      ReportsCarry(s.readers, s.requests, s.reports, s'.readers, s'.requests);
    }
  }

  lemma HeardPolling(readers: seq<Reader>, reports: seq<Report>, report: Report)
    requires PollingFits(readers, reports) && report.reader < |readers| && !readers[report.reader].stopped
    ensures PollingFits(readers[report.reader := Heard(readers[report.reader], report.outcome)], reports + [report])
  {
    var reports' := reports + [report];
    assert reports'[..|reports'| - 1] == reports;
  }

  lemma HearIsSound(s: State, n: nat, outcome: Outcome)
    requires Sound(s) && n < |s.requests| && s.requests[n].phase.Outstanding?
    ensures Sound(Hear(s, n, outcome))
  {
    var s', r := Hear(s, n, outcome), s.requests[n].reader;
    if s.readers[r].stopped {
      assert s'.readers == s.readers;
    } else {
      var report := Report(n, r, outcome, s.rendered, s.committed);
      HeardPolling(s.readers, s.reports, report);
      ReportsGrow(s.readers, s.requests, s.reports, n, report);
      SameReaders(s.readers, s'.readers, s'.requests, s'.reports);
    }
  }

  lemma SameReaders(readers: seq<Reader>, readers': seq<Reader>, requests: seq<Request>, reports: seq<Report>)
    requires ReportsFit(readers, requests, reports) && |readers'| == |readers|
    requires forall r :: 0 <= r < |readers| ==>
               readers'[r].identity == readers[r].identity && readers'[r].stopped == readers[r].stopped
    ensures ReportsFit(readers', requests, reports)
  {
    ReportsCarry(readers, requests, reports, readers', requests);
  }

  lemma StepIsSound(s: State, e: Event)
    requires Sound(s) && Possible(s, e)
    ensures Sound(Step(s, e))
  {
    match e
    case Render(_) =>
    case Effect =>
      StopIsSound(s);
      OpenIsSound(Stop(s));
      RefreshIsSound(Open(Stop(s)));
    case Visibility(visible) => RefreshIsSound(s.(visible := visible));
    case Focus => RefreshIsSound(s);
    case Timer => RefreshIsSound(s);
    case Trigger => RefreshIsSound(s);
    case Issue(n) => IssueIsSound(s, n);
    case Answer(n, outcome) => HearIsSound(s, n, outcome);
    case Settle(n) => SettleIsSound(s, n);
  }

  lemma IssueIsSound(s: State, n: nat)
    requires Sound(s) && n < |s.requests| && s.requests[n].phase.Scheduled?
    ensures Sound(s.(requests := s.requests[n := s.requests[n].(phase := Outstanding)]))
  {
    ReportsCarry(s.readers, s.requests, s.reports, s.readers, s.requests[n := s.requests[n].(phase := Outstanding)]);
  }

  lemma SettleFlight(readers: seq<Reader>, requests: seq<Request>, n: nat)
    requires SingleFlight(readers, requests) && n < |requests| && requests[n].phase.Answered?
    ensures var r := requests[n].reader;
            SingleFlight(readers[r := readers[r].(pending := None)], requests[n := requests[n].(phase := Finished)])
  {
  }

  lemma SettleIsSound(s: State, n: nat)
    requires Sound(s) && n < |s.requests| && s.requests[n].phase.Answered?
    ensures Sound(Step(s, Settle(n)))
  {
    SettleFlight(s.readers, s.requests, n);
    SettleReports(s.readers, s.requests, s.reports, n);
    var r := s.requests[n].reader;
    SettleOpen(s.committed, s.current, s.readers, s.reports, r);
  }

  lemma SettleOpen(identity: string, current: Option<nat>, readers: seq<Reader>, reports: seq<Report>, r: nat)
    requires OneOpen(identity, current, readers) && PollingFits(readers, reports) && r < |readers|
    ensures var readers' := readers[r := readers[r].(pending := None)];
            OneOpen(identity, current, readers') && PollingFits(readers', reports)
  {
  }

  lemma SettleReports(readers: seq<Reader>, requests: seq<Request>, reports: seq<Report>, n: nat)
    requires ReportsFit(readers, requests, reports) && n < |requests| && requests[n].phase.Answered?
    ensures var r := requests[n].reader;
            ReportsFit(readers[r := readers[r].(pending := None)],
                       requests[n := requests[n].(phase := Finished)], reports)
  {
    var r := requests[n].reader;
    ReportsCarry(readers, requests, reports, readers[r := readers[r].(pending := None)],
                 requests[n := requests[n].(phase := Finished)]);
  }

  lemma {:induction false} RunIsSound(s: State, events: seq<Event>)
    requires Sound(s) && Run(s, events).Some?
    ensures Sound(Run(s, events).value)
    decreases |events|
  {
    if events != [] {
      StepIsSound(s, events[0]);
      RunIsSound(Step(s, events[0]), events[1..]);
    }
  }

  /** No reader has two requests unfinished. */
  predicate OneAtATime(requests: seq<Request>) {
    forall m, n :: 0 <= m < |requests| && 0 <= n < |requests| ==>
      (!requests[m].phase.Finished? && !requests[n].phase.Finished? && requests[m].reader == requests[n].reader ==>
         m == n)
  }

  /** Over every interleaving of refreshes, answers, failures, renders and effects: no reader ever has
      two requests unfinished; no outcome is reported twice; an outcome is reported unless its reader
      was stopped first; and whatever is reported was read for the selection whose effect ran last. */
  lemma ReportsAreOfTheCommittedSelection(events: seq<Event>)
    requires Run(START, events).Some?
    ensures var s := Run(START, events).value;
            OneAtATime(s.requests) && ReportsFit(s.readers, s.requests, s.reports)
  {
    RunIsSound(START, events);
  }

  /** The answer makes a report, and the callbacks it reaches were rendered for another selection than
      the one it was read for. */
  predicate GetsThrough(s: State, n: nat, outcome: Outcome)
    requires InRange(s) && n < |s.requests|
  {
    var s' := Hear(s, n, outcome);
    |s'.reports| > |s.reports|
    && s'.reports[|s.reports|].rendered != s.readers[s'.reports[|s.reports|].reader].identity
  }

  /** An outcome of an abandoned selection reaches the new callbacks exactly when its reader has not
      been stopped and a changed selection has been rendered whose effect has not run: once the effect
      has run, never. */
  lemma AbandonedOutcomesGetThroughExactly(events: seq<Event>, n: nat, outcome: Outcome)
    requires Run(START, events).Some? && Possible(Run(START, events).value, Answer(n, outcome))
    ensures var s := Run(START, events).value;
            GetsThrough(s, n, outcome) <==> !s.readers[s.requests[n].reader].stopped && s.rendered != s.committed
  {
    RunIsSound(START, events);
  }

  /** It does happen, for results and for failures alike; a consumer is safe where it compares the
      identity a result was read for with its own, and a rejection carries none. */
  lemma AbandonedOutcomeReached(outcome: Outcome)
    ensures exists events, n: nat :: LeadsThrough(events, n, outcome)
  {
    var events := [Render("a"), Effect, Issue(0), Render("b")];
    var s1 := Step(START, Render("a"));
    var s2 := Step(s1, Effect);
    assert s2.requests == [Request(0, Scheduled)];
    var s3 := Step(s2, Issue(0));
    var s4 := Step(s3, Render("b"));
    var e4, e3, e2 := [Render("b")], [Issue(0), Render("b")], [Effect, Issue(0), Render("b")];
    assert Run(s3, e4) == Some(s4) by { assert e4[1..] == []; }
    assert Run(s2, e3) == Some(s4) by { assert e3[1..] == e4; }
    assert Run(s1, e2) == Some(s4) by { assert e2[1..] == e3; }
    assert Run(START, events) == Some(s4) by { assert events[1..] == e2; }
    assert LeadsThrough(events, 0, outcome);
  }

  predicate LeadsThrough(events: seq<Event>, n: nat, outcome: Outcome) {
    && Run(START, events).Some? && Possible(Run(START, events).value, Answer(n, outcome))
    && GetsThrough(Run(START, events).value, n, outcome)
  }

  /** The timer asks again exactly while the last accepted result of the open reader was running;
      failures leave that as it is. */
  lemma PollingFollowsTheLastResult(events: seq<Event>)
    requires Run(START, events).Some?
    ensures var s := Run(START, events).value;
            && PollingFits(s.readers, s.reports)
            && (|Step(s, Timer).requests| > |s.requests| <==>
                  && s.visible && s.current.Some?
                  && LastRunning(s.reports, s.current.value) && s.readers[s.current.value].pending == None)
  {
    RunIsSound(START, events);
  }

  // ------------------------------------------------- one request per identity, exactly

  predicate Flying(requests: seq<Request>, n: nat) { n < |requests| && !requests[n].phase.Finished? }

  /** No identity has two requests unfinished. */
  predicate OnePerIdentity(readers: seq<Reader>, requests: seq<Request>) {
    && Known(readers, requests)
    && forall m, n :: 0 <= m < |requests| && 0 <= n < |requests| && Flying(requests, m) && Flying(requests, n) ==>
         (readers[requests[m].reader].identity == readers[requests[n].reader].identity ==> m == n)
  }

  /** Unfinished requests of the open identity belong to the open reader. */
  predicate OpenOwns(committed: string, current: Option<nat>, readers: seq<Reader>, requests: seq<Request>) {
    && Known(readers, requests)
    && (current.Some? ==>
          forall n :: 0 <= n < |requests| && Flying(requests, n) ==>
            (readers[requests[n].reader].identity == committed ==> requests[n].reader == current.value))
  }

  /** Some request for this identity is unfinished. */
  predicate Awaited(s: State, identity: string)
    requires InRange(s)
  {
    exists n :: 0 <= n < |s.requests| && Flying(s.requests, n) && s.readers[s.requests[n].reader].identity == identity
  }

  /** The effect commits an identity for which a request is still unfinished. */
  predicate Clashes(s: State, e: Event)
    requires InRange(s)
  {
    e.Effect? && s.rendered != "" && Awaited(s, s.rendered)
  }

  predicate Single(s: State) {
    InRange(s) && OnePerIdentity(s.readers, s.requests) && OpenOwns(s.committed, s.current, s.readers, s.requests)
  }

  lemma SingleCarry(readers: seq<Reader>, requests: seq<Request>, readers': seq<Reader>, requests': seq<Request>)
    requires OnePerIdentity(readers, requests) && Known(readers', requests')
    requires |readers| <= |readers'| && |requests| == |requests'|
    requires forall r :: 0 <= r < |readers| ==> readers'[r].identity == readers[r].identity
    requires forall n :: 0 <= n < |requests| ==>
               requests'[n].reader == requests[n].reader && (Flying(requests', n) ==> Flying(requests, n))
    ensures OnePerIdentity(readers', requests')
    ensures forall committed, current :: OpenOwns(committed, current, readers, requests) ==>
              OpenOwns(committed, current, readers', requests')
  {
    forall committed, current | OpenOwns(committed, current, readers, requests)
      ensures OpenOwns(committed, current, readers', requests')
    {
    }
  }

  /** The open reader starts a request: alone for its identity, when it waits for none. */
  lemma RefreshIsSingle(s: State)
    requires Sound(s) && Single(s)
    ensures Single(Refresh(s))
  {
    var s' := Refresh(s);
    if s.current.Some? && Starts(s.readers[s.current.value]) {
      StartIsSingle(s.committed, s.readers, s.requests, s.current.value);
    }
  }

  lemma StartIsSingle(committed: string, readers: seq<Reader>, requests: seq<Request>, r: nat)
    requires SingleFlight(readers, requests) && OnePerIdentity(readers, requests)
    requires OpenOwns(committed, Some(r), readers, requests)
    requires r < |readers| && readers[r].identity == committed && readers[r].pending == None
    ensures var readers' := readers[r := readers[r].(pending := Some(|requests|))];
            var requests' := requests + [Request(r, Scheduled)];
            OnePerIdentity(readers', requests') && OpenOwns(committed, Some(r), readers', requests')
  {
    var readers' := readers[r := readers[r].(pending := Some(|requests|))];
    var requests' := requests + [Request(r, Scheduled)];
    forall n | 0 <= n < |requests| && Flying(requests, n)
      ensures readers[requests[n].reader].identity != committed
    {
      assert readers[requests[n].reader].pending == Some(n);
    }
    forall n | 0 <= n < |requests| && Flying(requests', n)
      ensures readers'[requests'[n].reader].identity != committed
    {
      assert Flying(requests, n);
    }
  }

  lemma OpenIsSingle(s: State)
    requires InRange(s) && OnePerIdentity(s.readers, s.requests) && s.current == None
    requires s.rendered == "" || !Awaited(s, s.rendered)
    ensures Single(Open(s))
  {
    var s' := Open(s);
    SingleCarry(s.readers, s.requests, s'.readers, s'.requests);
    forall n | 0 <= n < |s.requests| && Flying(s.requests, n) && s.rendered != ""
      ensures s'.readers[s'.requests[n].reader].identity != s.rendered
    {
      assert s'.readers[s.requests[n].reader] == s.readers[s.requests[n].reader];
    }
  }

  lemma StopIsSingle(s: State)
    requires Single(s)
    ensures Single(Stop(s)) && Stop(s).current == None && Stop(s).rendered == s.rendered
    ensures forall identity :: Awaited(Stop(s), identity) <==> Awaited(s, identity)
  {
    var s' := Stop(s);
    SingleCarry(s.readers, s.requests, s'.readers, s'.requests);
    assert s'.requests == s.requests;
    forall n | 0 <= n < |s.requests|
      ensures s'.readers[s.requests[n].reader].identity == s.readers[s.requests[n].reader].identity
    {
    }
  }

  lemma EffectIsSingle(s: State)
    requires Sound(s) && Single(s) && Possible(s, Effect) && !Clashes(s, Effect)
    ensures Single(Step(s, Effect))
  {
    StopIsSound(s);
    StopIsSingle(s);
    OpenIsSound(Stop(s));
    OpenIsSingle(Stop(s));
    RefreshIsSingle(Open(Stop(s)));
  }

  /** An effect that commits an awaited identity asks for it a second time at once. */
  lemma ClashDoubles(s: State)
    requires Sound(s) && Possible(s, Effect) && Clashes(s, Effect)
    ensures !OnePerIdentity(Step(s, Effect).readers, Step(s, Effect).requests)
  {
    var n :| 0 <= n < |s.requests| && Flying(s.requests, n) && s.readers[s.requests[n].reader].identity == s.rendered;
    var opening := Open(Stop(s));
    var s' := Step(s, Effect);
    assert s' == Refresh(opening) && opening.current == Some(|s.readers|);
    assert s'.requests == s.requests + [Request(|s.readers|, Scheduled)];
    assert s'.readers[|s.readers|].identity == s.rendered;
    assert s'.readers[s.requests[n].reader].identity == s.rendered;
    assert Flying(s'.requests, n) && Flying(s'.requests, |s.requests|);
  }

  lemma StepIsSingle(s: State, e: Event)
    requires Sound(s) && Single(s) && Possible(s, e) && !Clashes(s, e)
    ensures Single(Step(s, e))
  {
    var s' := Step(s, e);
    match e
    case Render(_) =>
    case Effect => EffectIsSingle(s);
    case Visibility(visible) => RefreshIsSingle(s.(visible := visible));
    case Focus => RefreshIsSingle(s);
    case Timer => RefreshIsSingle(s);
    case Trigger => RefreshIsSingle(s);
    case Issue(_) => SingleCarry(s.readers, s.requests, s'.readers, s'.requests);
    case Answer(_, _) => SingleCarry(s.readers, s.requests, s'.readers, s'.requests);
    case Settle(_) => SingleCarry(s.readers, s.requests, s'.readers, s'.requests);
  }

  /** At every moment of the run no identity has two requests unfinished. */
  predicate AlwaysOnePerIdentity(s: State, events: seq<Event>)
    requires InRange(s)
    decreases |events|
  {
    OnePerIdentity(s.readers, s.requests)
    && (events == [] || !Possible(s, events[0]) || AlwaysOnePerIdentity(Step(s, events[0]), events[1..]))
  }

  predicate NeverClashes(s: State, events: seq<Event>)
    requires InRange(s)
    decreases |events|
  {
    events == [] || !Possible(s, events[0])
    || (!Clashes(s, events[0]) && NeverClashes(Step(s, events[0]), events[1..]))
  }

  lemma {:induction false} OnePerIdentityFrom(s: State, events: seq<Event>)
    requires Sound(s) && Single(s)
    ensures AlwaysOnePerIdentity(s, events) <==> NeverClashes(s, events)
    decreases |events|
  {
    if events != [] && Possible(s, events[0]) {
      if Clashes(s, events[0]) {
        ClashDoubles(s);
      } else {
        StepIsSound(s, events[0]);
        StepIsSingle(s, events[0]);
        OnePerIdentityFrom(Step(s, events[0]), events[1..]);
      }
    }
  }

  /** Over every run, at every moment no two unfinished requests are for one identity, if and only if no
      effect commits an identity for which a request is still unfinished. */
  lemma OneRequestPerIdentityExactly(events: seq<Event>)
    ensures AlwaysOnePerIdentity(START, events) <==> NeverClashes(START, events)
  {
    OnePerIdentityFrom(START, events);
  }

  /** Two requests for one identity, the first by a reader that has been stopped. */
  predicate Overlapping(s: State, m: nat, n: nat)
    requires InRange(s)
  {
    && Flying(s.requests, m) && Flying(s.requests, n)
    && s.readers[s.requests[m].reader].identity == s.readers[s.requests[n].reader].identity
    && s.readers[s.requests[m].reader].stopped && !s.readers[s.requests[n].reader].stopped
  }

  /** One request per reader is all there is: after a change of selection and back, two requests for
      the same identity can be outstanding, of which only the later can be reported. */
  lemma ReadersOverlapAcrossSelections()
    ensures exists events, m: nat, n: nat ::
              Run(START, events).Some? && Overlapping(Run(START, events).value, m, n)
  {
    var a0, a1 := Reader("a", true, Some(0), false), Reader("b", true, Some(1), false);
    var a2 := Reader("a", false, Some(2), false);
    var s1 := State("a", "a", true, Some(0), [a0.(stopped := false)], [Request(0, Scheduled)], []);
    var s2 := State("b", "b", true, Some(1), [a0, a1.(stopped := false)], s1.requests + [Request(1, Scheduled)], []);
    var s3 := State("a", "a", true, Some(2), [a0, a1, a2], s2.requests + [Request(2, Scheduled)], []);
    assert Step(Step(START, Render("a")), Effect) == s1;
    assert Step(Step(s1, Render("b")), Effect) == s2;
    assert Step(Step(s2, Render("a")), Effect) == s3;
    SelectionsRun(s1, s2, s3);
    assert Overlapping(s3, 0, 2);
  }

  lemma SelectionsRun(s1: State, s2: State, s3: State)
    requires InRange(s1) && InRange(s2) && s1.committed != "b" && s2.committed != "a"
    requires s1 == Step(Step(START, Render("a")), Effect)
    requires s2 == Step(Step(s1, Render("b")), Effect)
    requires s3 == Step(Step(s2, Render("a")), Effect)
    ensures Run(START, [Render("a"), Effect] + [Render("b"), Effect, Render("a"), Effect]) == Some(s3)
  {
    SelectRuns(START, "a", [Render("b"), Effect, Render("a"), Effect]);
    SelectRuns(s1, "b", [Render("a"), Effect]);
    SelectRuns(s2, "a", []);
    assert [Render("a"), Effect] + [] == [Render("a"), Effect];
    assert [Render("b"), Effect] + [Render("a"), Effect] == [Render("b"), Effect, Render("a"), Effect];
  }

  lemma SelectRuns(s: State, identity: string, rest: seq<Event>)
    requires InRange(s) && identity != s.committed
    ensures Run(s, [Render(identity), Effect] + rest) == Run(Step(Step(s, Render(identity)), Effect), rest)
  {
    var all := [Render(identity), Effect] + rest;
    assert all[1..] == [Effect] + rest && all[1..][1..] == rest;
  }
}
