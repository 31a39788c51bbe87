/** The browser's API client: every request remembers the workspace it was made for, and nothing
    obtained for a workspace the user has left is handed to the caller.

    A request is cut at its awaits. Between two of its segments anything may happen: other requests
    begin and finish, the caller aborts, another token provider is installed. */
module WorkspaceFence {
  import opened Options

  /** How a request ends: with a value, with an API error, because its workspace was left or it was
      aborted, or with a rejection that comes straight from an await. */
  datatype Outcome = Value | Empty | Blob | ApiFailure(status: int) | Stale | Raised

  predicate Delivered(o: Outcome) { !o.Stale? && !o.Raised? }

  /** The workspace in force: a provider, and how many were installed before it. */
  datatype Epoch = Epoch(generation: nat, provider: nat)

  /** What the request waits for. `Settled` keeps the workspace in force at that moment. */
  datatype Phase =
    | AwaitToken
    | AwaitResponse
    | AwaitErrorBody(status: int)
    | AwaitBody
    | Settled(outcome: Outcome, under: Epoch)

  /** `answered` is the status of the response, once it is there. */
  datatype Call = Call(blob: bool, made: Epoch, aborted: bool, phase: Phase, answered: Option<int>)

  datatype State = State(epoch: Epoch, pending: set<nat>, calls: map<nat, Call>)

  datatype Event =
    | Configure(provider: nat)
    | Begin(id: nat, blob: bool, aborted: bool)       // `aborted`: the caller's signal already was
    | CallerAborts(id: nat)
    | TokenReady(id: nat)
    | Responded(id: nat, status: int, json: bool)
    | BodyRead(id: nat, usable: bool)
    | Rejects(id: nat)                                // the awaited promise rejects

  predicate Unsettled(s: State, id: nat) { id in s.calls && !s.calls[id].phase.Settled? }

  predicate Possible(s: State, e: Event) {
    match e
    case Configure(_) => true
    case Begin(id, blob, aborted) => id !in s.calls && (blob ==> !aborted)
    case CallerAborts(id) => Unsettled(s, id) && !s.calls[id].blob
    case TokenReady(id) => Unsettled(s, id) && s.calls[id].phase.AwaitToken?
    case Responded(id, _, _) => Unsettled(s, id) && s.calls[id].phase.AwaitResponse?
    case BodyRead(id, _) => Unsettled(s, id) && (s.calls[id].phase.AwaitErrorBody? || s.calls[id].phase.AwaitBody?)
    case Rejects(id) => Unsettled(s, id)
  }

  /** What every segment checks before it goes on. */
  predicate Current(s: State, call: Call) {
    !call.aborted && call.made.generation == s.epoch.generation
  }

  predicate Ok(status: int) { 200 <= status <= 299 }

  function AfterResponse(call: Call, status: int, json: bool, now: Epoch): Phase {
    if !Ok(status) then
      if !call.blob && json then AwaitErrorBody(status) else Settled(ApiFailure(status), now)
    else if !call.blob && status == 204 then Settled(Empty, now)
    else AwaitBody
  }

  function AfterBody(call: Call, usable: bool, now: Epoch): Phase {
    match call.phase
    case AwaitErrorBody(status) => Settled(if usable then ApiFailure(status) else Raised, now)
    case _ => Settled(if call.blob then Blob else Value, now)
  }

  /** The next phase of the request an event is for. */
  function NextPhase(s: State, call: Call, e: Event): Phase {
    if e.Rejects? then Settled(Raised, s.epoch)
    else if !Current(s, call) then Settled(Stale, s.epoch)
    else
      match e
      case TokenReady(_) => AwaitResponse
      case Responded(_, status, json) => AfterResponse(call, status, json, s.epoch)
      case BodyRead(_, usable) => AfterBody(call, usable, s.epoch)
      case _ => call.phase
  }

  function Answered(call: Call, e: Event): Option<int> {
    if e.Responded? then Some(e.status) else call.answered
  }

  function Step(s: State, e: Event): State
    requires Possible(s, e)
  {
    match e
    case Configure(provider) =>
      State(Epoch(s.epoch.generation + 1, provider), {},
            map id | id in s.calls :: if id in s.pending then s.calls[id].(aborted := true) else s.calls[id])
    case Begin(id, blob, aborted) =>
      s.(pending := s.pending + {id}, calls := s.calls[id := Call(blob, s.epoch, aborted, AwaitToken, None)])
    case CallerAborts(id) => s.(calls := s.calls[id := s.calls[id].(aborted := true)])
    case _ =>
      var phase := NextPhase(s, s.calls[e.id], e);
      s.(pending := if phase.Settled? then s.pending - {e.id} else s.pending,
         calls := s.calls[e.id := s.calls[e.id].(phase := phase, answered := Answered(s.calls[e.id], e))])
  }

  function Run(s: State, events: seq<Event>): Option<State>
    decreases |events|
  {
    if events == [] then Some(s)
    else if Possible(s, events[0]) then Run(Step(s, events[0]), events[1..])
    else None
  }

  const START := State(Epoch(0, 0), {}, map[])

  // ------------------------------------------------------------------ the fence

  predicate CallFenced(s: State, call: Call) {
    && call.made.generation <= s.epoch.generation
    && (call.made.generation == s.epoch.generation ==> call.made == s.epoch)
    && (!call.phase.Settled? && call.made.generation != s.epoch.generation ==> call.aborted)
    && (call.phase.Settled? ==> call.made.generation <= call.phase.under.generation <= s.epoch.generation)
    && (call.phase.Settled? && Delivered(call.phase.outcome) ==> call.phase.under == call.made && !call.aborted)
    && (call.phase.Settled? && call.phase.outcome.Stale? ==>
          call.aborted || call.phase.under.generation != call.made.generation)
  }

  predicate Fenced(s: State) {
    && (forall id :: id in s.calls ==> CallFenced(s, s.calls[id]))
    && s.pending == set id | id in s.calls && Unsettled(s, id) && s.calls[id].made.generation == s.epoch.generation
  }

  lemma StepKeepsFence(s: State, e: Event)
    requires Fenced(s) && Possible(s, e)
    ensures Fenced(Step(s, e))
  {
    var s' := Step(s, e);
    forall id | id in s'.calls ensures CallFenced(s', s'.calls[id]) {
      if id in s.calls { assert CallFenced(s, s.calls[id]); }
    }
  }

  lemma {:induction false} RunKeepsFence(s: State, events: seq<Event>)
    requires Fenced(s) && Run(s, events).Some?
    ensures Fenced(Run(s, events).value)
    decreases |events|
  {
    if events != [] {
      StepKeepsFence(s, events[0]);
      RunKeepsFence(Step(s, events[0]), events[1..]);
    }
  }

  /** Over every interleaving: a value, a blob or an API error is only ever delivered while the very
      provider it was obtained with is still installed, with no change in between, and to a caller
      that has not aborted. */
  lemma DeliveryIsUnderTheInstalledProvider(events: seq<Event>)
    requires Run(START, events).Some?
    ensures var s := Run(START, events).value;
            forall id :: id in s.calls && s.calls[id].phase.Settled? && Delivered(s.calls[id].phase.outcome) ==>
              s.calls[id].phase.under == s.calls[id].made && !s.calls[id].aborted
  {
    RunKeepsFence(START, events);
    var s := Run(START, events).value;
    forall id | id in s.calls && s.calls[id].phase.Settled? && Delivered(s.calls[id].phase.outcome)
      ensures s.calls[id].phase.under == s.calls[id].made && !s.calls[id].aborted
    {
      assert CallFenced(s, s.calls[id]);
    }
  }

  /** `pendingRequests` is exactly the unfinished requests of the current generation, and every other
      unfinished request has been aborted: for those the abort flag alone decides the fence. */
  lemma PendingIsExact(events: seq<Event>)
    requires Run(START, events).Some?
    ensures var s := Run(START, events).value;
            && (forall id :: id in s.pending <==> Unsettled(s, id) && s.calls[id].made.generation == s.epoch.generation)
            && (forall id :: Unsettled(s, id) ==> (Current(s, s.calls[id]) <==> !s.calls[id].aborted))
            && (forall id :: Unsettled(s, id) && Current(s, s.calls[id]) ==> id in s.pending)
  {
    RunKeepsFence(START, events);
    var s := Run(START, events).value;
    forall id | Unsettled(s, id) ensures Current(s, s.calls[id]) <==> !s.calls[id].aborted {
      assert CallFenced(s, s.calls[id]);
    }
  }

  /** A request is refused as stale only when its workspace was left or its caller aborted it. */
  lemma StaleOnlyWhenAbandoned(events: seq<Event>, id: nat)
    requires Run(START, events).Some?
    requires var s := Run(START, events).value;
             id in s.calls && s.calls[id].phase.Settled? && s.calls[id].phase.outcome.Stale?
    ensures var call := Run(START, events).value.calls[id];
            call.aborted || call.phase.under.generation > call.made.generation
  {
    RunKeepsFence(START, events);
    assert CallFenced(Run(START, events).value, Run(START, events).value.calls[id]);
  }

  predicate Undeliverable(s: State, id: nat) {
    && id in s.calls
    && (!s.calls[id].phase.Settled? ==> s.calls[id].aborted)
    && (s.calls[id].phase.Settled? ==> !Delivered(s.calls[id].phase.outcome))
  }

  /** Whatever happens after another provider is installed, no request made before delivers anything
      again: going back to the old provider does not revive it. */
  lemma {:induction false} AbandonedRequestsNeverDeliver(s: State, events: seq<Event>, id: nat)
    requires Undeliverable(s, id) && Run(s, events).Some?
    ensures Undeliverable(Run(s, events).value, id)
    decreases |events|
  {
    if events != [] {
      AbandonedRequestsNeverDeliver(Step(s, events[0]), events[1..], id);
    }
  }

  lemma ConfiguringAbandons(s: State, provider: nat, id: nat)
    requires Fenced(s) && Unsettled(s, id)
    ensures Undeliverable(Step(s, Configure(provider)), id)
  {
    assert CallFenced(s, s.calls[id]);
  }

  /** The event ends a segment of a request. */
  predicate Segment(e: Event) { e.TokenReady? || e.Responded? || e.BodyRead? || e.Rejects? }

  /** Where a request settles, exactly, whatever its outcome: in the workspace it was made in if and only
      if it was pending until then. Values and API errors only ever settle so; a rejection of an await
      settles whenever it comes, and reaches its caller in another workspace exactly when the request
      was no longer pending. */
  lemma SettlesAtHomeExactlyWhenPending(events: seq<Event>, e: Event)
    requires Run(START, events).Some? && Segment(e) && Possible(Run(START, events).value, e)
    ensures var s := Run(START, events).value;
            var call := Step(s, e).calls[e.id];
            && (call.phase.Settled? ==> (call.phase.under == call.made <==> e.id in s.pending))
            && (e.Rejects? ==> call.phase == Settled(Raised, s.epoch))
            && (call.phase.Settled? && Delivered(call.phase.outcome) ==> e.id in s.pending)
  {
    RunKeepsFence(START, events);
    var s := Run(START, events).value;
    StepKeepsFence(s, e);
    assert CallFenced(s, s.calls[e.id]);
  }

  /** A run in which the request is no longer pending when its fetch is rejected. */
  lemma RejectionsAreNotFenced()
    ensures exists events, id ::
              && Run(START, events).Some?
              && var s := Run(START, events).value;
                 && id in s.calls && s.calls[id].phase.Settled? && s.calls[id].phase.outcome.Raised?
                 && s.calls[id].phase.under != s.calls[id].made
  {
    var e0, e1, e2, e3 := Begin(7, false, false), TokenReady(7), Configure(1), Rejects(7);
    var s1 := Step(START, e0);
    var s2 := Step(s1, e1);
    var s3 := Step(s2, e2);
    var s4 := Step(s3, e3);
    assert Run(s3, [e3]) == Some(s4) by { assert [e3][1..] == []; }
    assert Run(s2, [e2, e3]) == Some(s4) by { assert [e2, e3][1..] == [e3]; }
    assert Run(s1, [e1, e2, e3]) == Some(s4) by { assert [e1, e2, e3][1..] == [e2, e3]; }
    assert Run(START, [e0, e1, e2, e3]) == Some(s4) by { assert [e0, e1, e2, e3][1..] == [e1, e2, e3]; }
    assert s4.calls[7].phase == Settled(Raised, Epoch(1, 1)) && s4.calls[7].made == Epoch(0, 0);
  }

  // ------------------------------------------------------------ what a response leads to

  /** A response outside 200 to 299 makes the request wait for its error body, or ends it with the API
      error of that status, unless its workspace was left; one within is never an API error. */
  lemma ResponseLeadsToItsKind(s: State, id: nat, status: int, json: bool)
    requires Possible(s, Responded(id, status, json))
    ensures var phase := Step(s, Responded(id, status, json)).calls[id].phase;
            && (status < 200 || 299 < status ==>
                  phase == AwaitErrorBody(status)
                  || (phase.Settled? && (phase.outcome == ApiFailure(status) || phase.outcome == Stale)))
            && (200 <= status <= 299 ==>
                  phase == AwaitBody || (phase.Settled? && (phase.outcome == Empty || phase.outcome == Stale)))
            && (phase == Settled(Stale, s.epoch) <==> !Current(s, s.calls[id]))
            && (phase == Settled(Empty, s.epoch) <==> Current(s, s.calls[id]) && !s.calls[id].blob && status == 204)
            && (phase.AwaitErrorBody? ==> json && !s.calls[id].blob)
  {
  }

  /** A token lets exactly the requests of the workspace in force go on. */
  lemma TokenLeadsOn(s: State, id: nat)
    requires Possible(s, TokenReady(id))
    ensures var phase := Step(s, TokenReady(id)).calls[id].phase;
            phase == if Current(s, s.calls[id]) then AwaitResponse else Settled(Stale, s.epoch)
  {
  }

  /** The body of an error ends the request with that error, or with the rejection of a body that cannot
      be used; any other body is the value, or the blob of a blob request. */
  lemma BodyLeadsToItsKind(s: State, id: nat, usable: bool)
    requires Possible(s, BodyRead(id, usable)) && Current(s, s.calls[id])
    ensures var call, phase := s.calls[id], Step(s, BodyRead(id, usable)).calls[id].phase;
            && phase.Settled? && phase.under == s.epoch
            && (call.phase.AwaitErrorBody? && usable ==> phase.outcome == ApiFailure(call.phase.status))
            && (call.phase.AwaitErrorBody? && !usable ==> phase.outcome == Raised)
            && (call.phase.AwaitBody? && call.blob ==> phase.outcome == Blob)
            && (call.phase.AwaitBody? && !call.blob ==> phase.outcome == Value)
  {
  }

  /** What a request is told fits the response it got. */
  predicate Truthful(call: Call) {
    match call.phase
    case AwaitToken => call.answered == None
    case AwaitResponse => call.answered == None
    case AwaitErrorBody(status) => call.answered == Some(status) && !(200 <= status <= 299) && !call.blob
    case AwaitBody =>
      call.answered.Some? && 200 <= call.answered.value <= 299 && (call.blob || call.answered != Some(204))
    case Settled(Value, _) =>
      !call.blob && call.answered.Some? && 200 <= call.answered.value <= 299 && call.answered != Some(204)
    case Settled(Empty, _) => !call.blob && call.answered == Some(204)
    case Settled(Blob, _) => call.blob && call.answered.Some? && 200 <= call.answered.value <= 299
    case Settled(ApiFailure(status), _) => call.answered == Some(status) && !(200 <= status <= 299)
    case Settled(_, _) => true
  }

  ghost predicate AllTruthful(s: State) { forall id :: id in s.calls ==> Truthful(s.calls[id]) }

  lemma StepKeepsTruthful(s: State, e: Event)
    requires AllTruthful(s) && Possible(s, e)
    ensures AllTruthful(Step(s, e))
  {
    forall id | id in Step(s, e).calls ensures Truthful(Step(s, e).calls[id]) {
      if id in s.calls { assert Truthful(s.calls[id]); }
    }
  }

  lemma {:induction false} RunKeepsTruthful(s: State, events: seq<Event>)
    requires AllTruthful(s) && Run(s, events).Some?
    ensures AllTruthful(Run(s, events).value)
    decreases |events|
  {
    if events != [] {
      StepKeepsTruthful(s, events[0]);
      RunKeepsTruthful(Step(s, events[0]), events[1..]);
    }
  }

  /** Over every interleaving: a request ends with a value, with nothing or with a blob only if its response
      had a status in 200 to 299, 204 for nothing, and with an API error only of its response's status,
      outside them. */
  lemma OutcomesAreTruthful(events: seq<Event>)
    requires Run(START, events).Some?
    ensures AllTruthful(Run(START, events).value)
  {
    RunKeepsTruthful(START, events);
  }

  // ------------------------------------------------------------------ the client

  /** The module's variables, and the requests under way. Each method is one uninterrupted segment. */
  class Client {
    var requestGeneration: nat
    var tokenProvider: nat
    var pendingRequests: set<nat>
    var calls: map<nat, Call>

    function Abstract(): State
      reads this
    {
      State(Epoch(requestGeneration, tokenProvider), pendingRequests, calls)
    }

    constructor ()
      ensures Abstract() == START
    {
      requestGeneration, tokenProvider, pendingRequests, calls := 0, 0, {}, map[];
    }

    method ConfigureApiTokenProvider(provider: nat)
      requires Fenced(Abstract())
      modifies this
      ensures Abstract() == Step(old(Abstract()), Configure(provider))
    {
      requestGeneration := requestGeneration + 1;
      var left := pendingRequests;
      while left != {}
        invariant left <= pendingRequests == old(pendingRequests)
        invariant requestGeneration == old(requestGeneration) + 1
        invariant calls == map id | id in old(calls) ::
                    if id in pendingRequests - left then old(calls)[id].(aborted := true) else old(calls)[id]
      {
        var controller :| controller in left;
        assert Unsettled(old(Abstract()), controller);
        calls := calls[controller := calls[controller].(aborted := true)];
        left := left - {controller};
      }
      pendingRequests := {};
      tokenProvider := provider;
    }

    method StartRequest(id: nat, blob: bool, aborted: bool)
      requires Possible(Abstract(), Begin(id, blob, aborted))
      modifies this
      ensures Abstract() == Step(old(Abstract()), Begin(id, blob, aborted))
    {
      calls := calls[id := Call(blob, Epoch(requestGeneration, tokenProvider), aborted, AwaitToken, None)];
      pendingRequests := pendingRequests + {id};
    }

    method AbortRequest(id: nat)
      requires Possible(Abstract(), CallerAborts(id))
      modifies this
      ensures Abstract() == Step(old(Abstract()), CallerAborts(id))
    {
      calls := calls[id := calls[id].(aborted := true)];
    }

    /** The `finally` block. */
    method Settle(id: nat, outcome: Outcome)
      requires id in calls
      modifies this
      ensures requestGeneration == old(requestGeneration) && tokenProvider == old(tokenProvider)
      ensures pendingRequests == old(pendingRequests) - {id}
      ensures calls == old(calls)[id := old(calls)[id].(
                         phase := Settled(outcome, Epoch(requestGeneration, tokenProvider)))]
    {
      calls := calls[id := calls[id].(phase := Settled(outcome, Epoch(requestGeneration, tokenProvider)))];
      pendingRequests := pendingRequests - {id};
    }

    method OnToken(id: nat)
      requires Possible(Abstract(), TokenReady(id))
      modifies this
      ensures Abstract() == Step(old(Abstract()), TokenReady(id))
    {
      if calls[id].aborted || calls[id].made.generation != requestGeneration {
        Settle(id, Stale);
        return;
      }
      calls := calls[id := calls[id].(phase := AwaitResponse)];
    }

    method OnResponse(id: nat, status: int, json: bool)
      requires Possible(Abstract(), Responded(id, status, json))
      modifies this
      ensures Abstract() == Step(old(Abstract()), Responded(id, status, json))
    {
      calls := calls[id := calls[id].(answered := Some(status))];
      if calls[id].aborted || calls[id].made.generation != requestGeneration {
        Settle(id, Stale);
        return;
      }
      if !Ok(status) {
        if !calls[id].blob && json {
          calls := calls[id := calls[id].(phase := AwaitErrorBody(status))];
          return;
        }
        Settle(id, ApiFailure(status));
        return;
      }
      if !calls[id].blob && status == 204 {
        Settle(id, Empty);
        return;
      }
      calls := calls[id := calls[id].(phase := AwaitBody)];
    }

    method OnBody(id: nat, usable: bool)
      requires Possible(Abstract(), BodyRead(id, usable))
      modifies this
      ensures Abstract() == Step(old(Abstract()), BodyRead(id, usable))
    {
      if calls[id].aborted || calls[id].made.generation != requestGeneration {
        Settle(id, Stale);
        return;
      }
      if calls[id].phase.AwaitErrorBody? {
        Settle(id, if usable then ApiFailure(calls[id].phase.status) else Raised);
      } else {
        Settle(id, if calls[id].blob then Blob else Value);
      }
    }

    method OnRejection(id: nat)
      requires Possible(Abstract(), Rejects(id))
      modifies this
      ensures Abstract() == Step(old(Abstract()), Rejects(id))
    {
      Settle(id, Raised);
    }
  }
}
