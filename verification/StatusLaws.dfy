/** When the status hook asks, what becomes of an answer and what an effect changes, said outright. */
module StatusLaws {
  import opened Options
  import opened StatusReader

  /** The reader in force is waiting for no answer. */
  predicate Idle(s: State)
    requires InRange(s)
  {
    s.current.Some? && s.readers[s.current.value].pending == None
  }

  /** The event asks, and there is a reader that may ask: the effect of a selection always does, a return to
      the visible page and an explicit trigger do, and the timer does while the operation runs. */
  predicate Asks(s: State, e: Event)
    requires InRange(s)
  {
    match e
    case Effect => s.rendered != ""
    case Visibility(visible) => visible && Idle(s)
    case Focus => s.visible && Idle(s)
    case Timer => s.visible && Idle(s) && s.readers[s.current.value].polling
    case Trigger => Idle(s)
    case _ => false
  }

  /** A step starts a request exactly when it asks: one, by the reader in force, of the identity in force. */
  lemma RequestsStartExactly(s: State, e: Event)
    requires InRange(s) && Sound(s) && Possible(s, e)
    ensures var s' := Step(s, e);
            && |s'.requests| == |s.requests| + (if Asks(s, e) then 1 else 0)
            && (Asks(s, e) ==>
                  && s'.current.Some? && s'.requests[|s.requests|] == Request(s'.current.value, Scheduled)
                  && s'.readers[s'.current.value].pending == Some(|s.requests|)
                  && s'.readers[s'.current.value].identity == s'.committed)
  {
    assert OneOpen(s.committed, s.current, s.readers);
  }

  /** The effect commits what was rendered, stops the reader that was in force and opens one for the new
      selection, unless there is none. */
  lemma EffectExactly(s: State)
    requires InRange(s) && Sound(s) && Possible(s, Effect)
    ensures var s' := Step(s, Effect);
            && s'.committed == s.rendered == s'.rendered
            && (s.current.Some? ==> s'.readers[s.current.value] == s.readers[s.current.value].(stopped := true))
            && (forall r :: 0 <= r < |s.readers| && s.current != Some(r) ==> s'.readers[r] == s.readers[r])
            && (if s.rendered == "" then s'.current == None && |s'.readers| == |s.readers|
                else s'.current == Some(|s.readers|) && |s'.readers| == |s.readers| + 1
                     && s'.readers[|s.readers|] == Reader(s.rendered, false, Some(|s.requests|), false))
            && s'.reports == s.reports && s'.visible == s.visible
  {
  }

  /** An answer reaches the callbacks exactly when its reader is in force, and is then reported once; only
      a result decides whether the timer goes on asking. */
  lemma AnswerExactly(s: State, n: nat, outcome: Outcome)
    requires InRange(s) && Sound(s) && Possible(s, Answer(n, outcome))
    ensures var s', r := Step(s, Answer(n, outcome)), s.requests[n].reader;
            var heard := s.current == Some(r);
            && s'.reports ==
               s.reports + (if heard then [Report(n, r, outcome, s.rendered, s.committed)] else [])
            && s'.readers[r] == s.readers[r].(polling := if heard && outcome.Result? then outcome.running
                                                         else s.readers[r].polling)
            && (forall other :: 0 <= other < |s.readers| && other != r ==> s'.readers[other] == s.readers[other])
            && s'.requests == s.requests[n := Request(r, Answered)]
  {
    assert OneOpen(s.committed, s.current, s.readers);
  }

  /** Once a request has settled its reader may ask again, and no other reader is touched. */
  lemma SettlingExactly(s: State, n: nat)
    requires InRange(s) && Sound(s) && Possible(s, Settle(n))
    ensures var s', r := Step(s, Settle(n)), s.requests[n].reader;
            && s.readers[r].pending == Some(n) && s'.readers == s.readers[r := s.readers[r].(pending := None)]
            && s'.requests == s.requests[n := Request(r, Finished)] && s'.reports == s.reports
            && (s.current == Some(r) ==> Idle(s'))
  {
  }
}
