/** `history.go` asks for a traversal that takes effect later. Until it lands, the client goes on with the
    entry it was asked on: its actions, a second close included, read and change that entry. */
module PendingTraversal {
  import opened Options
  import opened FormCodec
  import opened Navigation
  import opened OverlayHistory

  /** The history as it is, and the traversals asked for, oldest first. */
  datatype Tab = Tab(h: History, pending: seq<int>)

  datatype Event = Do(action: Action) | Land

  /** The traversal an action asks for, when it asks for one. */
  function Asked(h: History, a: Action): Option<int>
    requires WellFormed(h)
  {
    match a
    case Traverse(delta) => Some(delta)
    case CloseDrawer => if Current(h).depth > 0 then Some(0 - Current(h).depth) else None
    case _ => None
  }

  function Act(s: Tab, a: Action): (r: Tab)
    requires WellFormed(s.h)
    ensures WellFormed(r.h)
  {
    var asked := Asked(s.h, a);
    if asked.Some? then s.(pending := s.pending + [asked.value]) else s.(h := Step(s.h, a))
  }

  function Landed(s: Tab): (r: Tab)
    requires WellFormed(s.h)
    ensures WellFormed(r.h)
  {
    if s.pending == [] then s else Tab(Go(s.h, s.pending[0]), s.pending[1..])
  }

  function After(s: Tab, e: Event): (r: Tab)
    requires WellFormed(s.h)
    ensures WellFormed(r.h)
  {
    match e
    case Do(a) => Act(s, a)
    case Land => Landed(s)
  }

  function Run(s: Tab, events: seq<Event>): (r: Tab)
    requires WellFormed(s.h)
    ensures WellFormed(r.h)
    decreases |events|
  {
    if events == [] then s else Run(After(s, events[0]), events[1..])
  }

  predicate AllPermitted(s: Tab, events: seq<Event>)
    requires WellFormed(s.h)
    decreases |events|
  {
    events == []
    || ((events[0].Do? ==> Permitted(s.h, events[0].action)) && AllPermitted(After(s, events[0]), events[1..]))
  }

  /** However traversals and actions interleave, the stack stays grounded. */
  lemma {:induction false} PendingRunsStayStacked(s: Tab, events: seq<Event>)
    requires Stacked(s.h) && AllPermitted(s, events)
    ensures Stacked(Run(s, events).h)
    decreases |events|
  {
    if events != [] {
      if events[0].Do? { StepKeepsStacked(s.h, events[0].action); }
      PendingRunsStayStacked(After(s, events[0]), events[1..]);
    }
  }

  // ---------------------------------------------------------- closing, while it is pending

  /** The action adds an entry. */
  predicate Pushes(h: History, a: Action)
    requires WellFormed(h)
  {
    Asked(h, a) == None && Step(h, a).index == h.index + 1
  }

  function Acts(s: Tab, actions: seq<Action>): (r: Tab)
    requires WellFormed(s.h)
    ensures WellFormed(r.h)
    decreases |actions|
  {
    if actions == [] then s else Acts(Act(s, actions[0]), actions[1..])
  }

  function PushCount(s: Tab, actions: seq<Action>): nat
    requires WellFormed(s.h)
    decreases |actions|
  {
    if actions == [] then 0
    else (if Pushes(s.h, actions[0]) then 1 else 0) + PushCount(Act(s, actions[0]), actions[1..])
  }

  /** What one action does before anything lands: it stays, or moves one up; what is below stays. */
  lemma ActStays(s: Tab, a: Action)
    requires WellFormed(s.h)
    ensures var s' := Act(s, a);
            && s'.h.index == s.h.index + (if Pushes(s.h, a) then 1 else 0)
            && s'.h.entries[..s.h.index] == s.h.entries[..s.h.index]
            && s.pending <= s'.pending
  {
  }

  lemma {:induction false} ActsStay(s: Tab, actions: seq<Action>)
    requires WellFormed(s.h)
    ensures var s' := Acts(s, actions);
            && s'.h.index == s.h.index + PushCount(s, actions)
            && s'.h.entries[..s.h.index] == s.h.entries[..s.h.index]
            && s.pending <= s'.pending
    decreases |actions|
  {
    if actions != [] {
      ActStays(s, actions[0]);
      var next := Act(s, actions[0]);
      ActsStay(next, actions[1..]);
      var last := Acts(next, actions[1..]);
      assert last.h.entries[..s.h.index] == last.h.entries[..next.h.index][..s.h.index];
      assert next.h.entries[..s.h.index] == next.h.entries[..next.h.index][..s.h.index];
    }
  }

  /** The entry the current overlay was opened from is current again, drawer-free and at depth 0. */
  predicate Unwound(h: History, landed: History)
    requires WellFormed(h) && WellFormed(landed) && Current(h).depth <= h.index
  {
    && Current(landed) == h.entries[h.index - Current(h).depth]
    && View(landed).drawer == None && Current(landed).depth == 0
  }

  lemma LandsAbove(h: History, acted: Tab, pushed: nat)
    requires Stacked(h) && Current(h).depth > 0 && WellFormed(acted.h)
    requires acted.h.index == h.index + pushed && acted.h.entries[..h.index] == h.entries[..h.index]
    requires acted.pending != [] && acted.pending[0] == 0 - (Current(h).depth as int)
    ensures Current(h).depth <= h.index && Landed(acted).h.index == h.index - Current(h).depth + pushed
    ensures pushed == 0 ==> Unwound(h, Landed(acted).h)
  {
    assert Grounded(h.entries, h.index);
    var base := h.index - Current(h).depth;
    assert acted.h.entries[..h.index][base] == h.entries[..h.index][base];
  }

  /** A close of an overlay lands on the entry the overlay was opened from, drawer-free and at depth 0,
      if and only if nothing was pushed while it was pending; after k pushes it lands k entries too
      high. Replacing, reloading and asking for more traversals do not disturb it. */
  lemma PendingCloseLandsExactly(h: History, actions: seq<Action>)
    requires Stacked(h) && Current(h).depth > 0
    ensures Current(h).depth <= h.index
    ensures var base, closing := h.index - Current(h).depth, Act(Tab(h, []), CloseDrawer);
            var pushed, landed := PushCount(closing, actions), Landed(Acts(closing, actions)).h;
            && landed.index == base + pushed && (landed.index == base <==> pushed == 0)
            && (pushed == 0 ==> Unwound(h, landed))
  {
    var closing := Act(Tab(h, []), CloseDrawer);
    ActsStay(closing, actions);
    LandsAbove(h, Acts(closing, actions), PushCount(closing, actions));
  }

  /** A second close before the first has landed asks for the same way again. Once both have landed the
      client is where the first close led if and only if the history does not reach that far back. */
  lemma SecondCloseGoesTooFarExactly(h: History)
    requires Stacked(h) && Current(h).depth > 0
    ensures Current(h).depth <= h.index
    ensures var base, d := h.index - Current(h).depth, Current(h).depth;
            var once := Landed(Act(Tab(h, []), CloseDrawer));
            var twice := Landed(Landed(Act(Act(Tab(h, []), CloseDrawer), CloseDrawer)));
            && once == Tab(h.(index := base), []) && twice.pending == []
            && twice.h == h.(index := if base < d then base else base - d)
            && (twice == once <==> base < d)
  {
    assert Grounded(h.entries, h.index);
    var first := Act(Tab(h, []), CloseDrawer);
    var second := Act(first, CloseDrawer);
    var d: int := Current(h).depth;
    assert second == Tab(h, [0 - d, 0 - d]);
    assert second.pending[1..] == [0 - d];
  }
}
