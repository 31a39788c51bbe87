/** Drawers over browser history: the transitions decided by the navigation module, the client that
    applies them to the history stack, and what holds of the stack in every run. */
module OverlayHistory {
  import opened Options
  import opened FormCodec
  import opened Navigation
  import opened NavigationLaws

  /** A page and query as printed into a URL, and the state object stored beside it. */
  datatype Entry = Entry(page: Page, query: Query, depth: nat, parent: Option<(Page, Query)>)

  datatype History = History(entries: seq<Entry>, index: nat)

  predicate WellFormed(h: History) { h.index < |h.entries| }

  function Shown(e: Entry): Location { Committed(e.page, e.query) }

  function Current(h: History): Entry
    requires WellFormed(h)
  {
    h.entries[h.index]
  }

  function View(h: History): Location
    requires WellFormed(h)
  {
    Shown(Current(h))
  }

  // ------------------------------------------------------------------ query edits

  type Updates = seq<(string, Option<string>)>

  function QueryWith(current: Query, updates: Updates): Query {
    if updates == [] then current
    else
      var next, (key, value) := QueryWith(current, updates[..|updates| - 1]), updates[|updates| - 1];
      if value.Some? && value.value != "" then next[key := value.value] else next - {key}
  }

  method ApplyUpdates(current: Query, updates: Updates) returns (next: Query)
    ensures next == QueryWith(current, updates)
  {
    next := current;
    for k := 0 to |updates|
      invariant next == QueryWith(current, updates[..k])
    {
      assert updates[..k + 1][..k] == updates[..k];
      var (key, value) := updates[k];
      if value.Some? && value.value != "" { next := next[key := value.value]; } else { next := next - {key}; }
    }
    assert updates[..|updates|] == updates;
  }

  const DRAWER_KEYS: set<string> := {"drawer", "id", "tab"}

  function WithoutDrawer(query: Query): Query {
    QueryWith(query, [("drawer", None), ("id", None), ("tab", None)])
  }

  lemma WithoutDrawerRemovesItsKeys(query: Query)
    ensures WithoutDrawer(query) == query - DRAWER_KEYS
  {
    var updates: Updates := [("drawer", None), ("id", None), ("tab", None)];
    assert updates[..2][..1] == updates[..1] && updates[..1][..0] == [];
    assert QueryWith(query, updates[..1]) == query - {"drawer"} by {
      assert QueryWith(query, updates[..1][..0]) == query;
    }
    assert updates[..2][1] == ("id", None);
    assert QueryWith(query, updates[..2]) == query - {"drawer"} - {"id"};
    assert query - {"drawer"} - {"id"} - {"tab"} == query - DRAWER_KEYS;
  }

  /** Updates that leave the drawer keys alone. */
  predicate FilterUpdates(updates: Updates) {
    forall k :: 0 <= k < |updates| ==> updates[k].0 !in DRAWER_KEYS
  }

  lemma {:induction false} QueryWithKeeps(query: Query, updates: Updates, key: string)
    requires forall k :: 0 <= k < |updates| ==> updates[k].0 != key
    ensures key in QueryWith(query, updates) <==> key in query
    ensures key in query ==> QueryWith(query, updates)[key] == query[key]
  {
    if updates != [] { QueryWithKeeps(query, updates[..|updates| - 1], key); }
  }

  // ------------------------------------------------------------------ transitions

  datatype Mode = Push | Replace

  datatype Transition = Transition(page: Page, query: Query, mode: Mode, depth: nat, parent: Option<(Page, Query)>)

  datatype Closing = Delta(delta: int) | InPlace(transition: Transition)

  function ParentOf(current: Location, parent: Option<(Page, Query)>): Option<(Page, Query)> {
    if parent.Some? then parent else Some((current.page, WithoutDrawer(current.query)))
  }

  function OpenTransition(current: Location, depth: nat, parent: Option<(Page, Query)>, kind: DrawerKind,
                          id: string): Transition
  {
    var mode := if current.drawer.Some? && depth == 0 then Replace else Push;
    Transition(current.page,
               QueryWith(current.query, [("drawer", Some(KindName(kind))), ("id", Some(id)), ("tab", None)]),
               mode,
               if mode == Push then depth + 1 else 0,
               ParentOf(current, parent))
  }

  function TabTransition(current: Location, depth: nat, parent: Option<(Page, Query)>, tab: string)
    : Option<Transition>
  {
    if current.drawer == None || current.drawer.value.tab == tab then None
    else
      var mode := if depth == 0 then Replace else Push;
      Some(Transition(current.page,
                      QueryWith(current.query, [("tab", if tab == "overview" then None else Some(tab))]),
                      mode,
                      if mode == Push then depth + 1 else 0,
                      ParentOf(current, parent)))
  }

  function CloseTransition(current: Location, depth: nat): Closing {
    if depth > 0 then Delta(0 - depth)
    else InPlace(Transition(current.page, WithoutDrawer(current.query), Replace, 0, None))
  }

  // ------------------------------------------------------- effect on the history

  function Commit(h: History, t: Transition): History
    requires WellFormed(h)
    ensures WellFormed(Commit(h, t))
  {
    var e := Entry(t.page, t.query, t.depth, t.parent);
    if t.mode == Push then History(h.entries[..h.index + 1] + [e], h.index + 1)
    else h.(entries := h.entries[h.index := e])
  }

  /** A traversal past either end does nothing. */
  function Go(h: History, delta: int): History
    requires WellFormed(h)
    ensures WellFormed(Go(h, delta))
  {
    if 0 <= h.index + delta < |h.entries| then h.(index := h.index + delta) else h
  }

  datatype Action =
    | Navigate(page: Page)
    | Visit(page: Page, query: Query)
    | UpdateQuery(updates: Updates, mode: Mode)
    | OpenDrawer(kind: DrawerKind, id: string)
    | SetTab(tab: string)
    | CloseDrawer
    | Traverse(delta: int)
    | Reload

  function Step(h: History, a: Action): History
    requires WellFormed(h)
    ensures WellFormed(Step(h, a))
  {
    var e, shown := Current(h), View(h);
    match a
    case Navigate(page) =>
      if page != shown.page || shown.query != map[] then Commit(h, Transition(page, map[], Push, 0, None)) else h
    case Visit(page, query) => Commit(h, Transition(page, query, Push, 0, None))
    case UpdateQuery(updates, mode) =>
      var next := QueryWith(shown.query, updates);
      if next == shown.query then h else Commit(h, Transition(shown.page, next, mode, e.depth, e.parent))
    case OpenDrawer(kind, id) => Commit(h, OpenTransition(shown, e.depth, e.parent, kind, id))
    case SetTab(tab) =>
      var t := TabTransition(shown, e.depth, e.parent, tab);
      if t.Some? then Commit(h, t.value) else h
    case CloseDrawer =>
      (match CloseTransition(shown, e.depth)
       case Delta(delta) => Go(h, delta)
       case InPlace(t) => Commit(h, t))
    case Traverse(delta) => Go(h, delta)
    case Reload => h.(entries := h.entries[h.index := Loaded(e)])
  }

  /** The entry a load leaves: its URL in canonical form, its depth as the browser kept it. */
  function Loaded(e: Entry): Entry {
    var shown := Shown(e);
    Entry(shown.page, shown.query, e.depth,
          if shown.drawer.Some? then Some((shown.page, WithoutDrawer(shown.query))) else None)
  }

  /** The client: its fields are the browser's stack and the location it shows. */
  class App {
    var entries: seq<Entry>
    var index: nat
    var navigation: Location

    predicate Valid()
      reads this
    {
      index < |entries| && navigation == Shown(entries[index])
    }

    function Stack(): History
      reads this
    {
      History(entries, index)
    }

    /** First load: the canonical form of the URL replaces it in place. */
    constructor (page: Page, raw: Query)
      requires forall key :: key in raw ==> Admissible(key, raw[key])
      requires "github_setup" in raw || "entra_setup" in raw ==> page == Connections
      ensures Valid() && |entries| == 1 && index == 0 && entries[0].depth == 0
      ensures navigation == Normalised(page, raw) && JustLoaded(Stack())
    {
      var initial := Normalised(page, raw);
      CommittedIsCanonical(page, raw);
      entries := [Entry(initial.page, initial.query, 0,
                        if initial.drawer.Some? then Some((initial.page, WithoutDrawer(initial.query))) else None)];
      index := 0;
      navigation := initial;
    }

    /** A load in a tab that has a history: the entry keeps its stored depth. */
    constructor Restored(h: History)
      requires WellFormed(h)
      ensures Valid() && Stack() == Step(h, Reload)
    {
      LoadedShowsTheSame(Current(h));
      entries := h.entries[h.index := Loaded(Current(h))];
      index := h.index;
      navigation := Shown(Current(h));
    }

    method CommitNavigation(t: Transition)
      requires Valid()
      modifies this
      ensures Valid() && Stack() == Commit(old(Stack()), t)
    {
      var e := Entry(t.page, t.query, t.depth, t.parent);
      if t.mode == Push {
        entries := entries[..index + 1] + [e];
        index := index + 1;
      } else {
        entries := entries[index := e];
      }
      navigation := Committed(t.page, t.query);
    }

    method GoBy(delta: int)
      requires Valid()
      modifies this
      ensures Valid() && Stack() == Go(old(Stack()), delta)
    {
      if 0 <= index + delta < |entries| {
        index := index + delta;
        navigation := Shown(entries[index]);
      }
    }

    method Perform(a: Action)
      requires Valid()
      modifies this
      ensures Valid() && Stack() == Step(old(Stack()), a)
    {
      var e := entries[index];
      match a
      case Navigate(page) =>
        if page != navigation.page || navigation.query != map[] {
          CommitNavigation(Transition(page, map[], Push, 0, None));
        }
      case Visit(page, query) =>
        CommitNavigation(Transition(page, query, Push, 0, None));
      case UpdateQuery(updates, mode) =>
        var next := ApplyUpdates(navigation.query, updates);
        if next == navigation.query { return; }
        CommitNavigation(Transition(navigation.page, next, mode, e.depth, e.parent));
      case OpenDrawer(kind, id) =>
        CommitNavigation(OpenTransition(navigation, e.depth, e.parent, kind, id));
      case SetTab(tab) =>
        var t := TabTransition(navigation, e.depth, e.parent, tab);
        if t.Some? { CommitNavigation(t.value); }
      case CloseDrawer =>
        var closing := CloseTransition(navigation, e.depth);
        if closing.Delta? { GoBy(closing.delta); return; }
        CommitNavigation(closing.transition);
      case Traverse(delta) =>
        GoBy(delta);
      case Reload =>
        LoadedShowsTheSame(e);
        var parent := if navigation.drawer.Some? then Some((navigation.page, WithoutDrawer(navigation.query)))
                      else None;
        entries := entries[index := Entry(navigation.page, navigation.query, e.depth, parent)];
    }
  }

  /** Loading a page again shows what was shown. */
  lemma LoadedShowsTheSame(e: Entry)
    ensures Shown(Loaded(e)) == Shown(e)
  {
    var page := if Returns(e.query) then Connections else e.page;
    CommittedIsCanonical(page, Surviving(e.query));
  }

  // ------------------------------------------------------------------- invariant

  /** An overlay entry of depth d sits exactly d places above a drawer-free entry of depth 0, and
      the entries between them count 1..d. */
  predicate Grounded(entries: seq<Entry>, i: nat)
    requires i < |entries|
  {
    var d := entries[i].depth;
    d > 0 ==>
      && d <= i
      && entries[i - d].depth == 0
      && Shown(entries[i - d]).drawer == None
      && forall j :: i - d < j <= i ==> entries[j].depth == j - (i - d)
  }

  predicate Stacked(h: History) {
    WellFormed(h) && forall i :: 0 <= i < |h.entries| ==> Grounded(h.entries, i)
  }

  /** The one step that can break the stack: pushing a changed query onto an overlay entry. */
  predicate Permitted(h: History, a: Action)
    requires WellFormed(h)
  {
    a.UpdateQuery? ==>
      FilterUpdates(a.updates)
      && (a.mode == Replace || Current(h).depth == 0 || QueryWith(View(h).query, a.updates) == View(h).query)
  }

  lemma ShownQuery(e: Entry)
    ensures Shown(e).drawer == None ==> "drawer" !in Shown(e).query
    ensures Shown(e).drawer.Some? ==>
              var q := Shown(e).query;
              "drawer" in q && "id" in q && q["id"] != "" && KindOf(q["drawer"]) == Some(Shown(e).drawer.value.kind)
  {
  }

  lemma FiltersKeepDrawerFree(page: Page, e: Entry, updates: Updates)
    requires Shown(e).drawer == None && FilterUpdates(updates)
    ensures Committed(page, QueryWith(Shown(e).query, updates)).drawer == None
  {
    ShownQuery(e);
    QueryWithKeeps(Shown(e).query, updates, "drawer");
  }

  lemma PushKeepsStacked(h: History, t: Transition)
    requires Stacked(h) && t.mode == Push
    requires t.depth == 0 || (t.depth == Current(h).depth + 1 && (Current(h).depth == 0 ==> View(h).drawer == None))
    ensures Stacked(Commit(h, t))
  {
    var h' := Commit(h, t);
    forall i | 0 <= i < |h'.entries| ensures Grounded(h'.entries, i) {
      if i <= h.index {
        assert Grounded(h.entries, i);
      } else {
        assert Grounded(h.entries, h.index);
      }
    }
  }

  lemma ReplaceKeepsStacked(h: History, t: Transition)
    requires Stacked(h) && t.mode == Replace && t.depth == Current(h).depth
    requires View(h).drawer == None && t.depth == 0 ==> Committed(t.page, t.query).drawer == None
    ensures Stacked(Commit(h, t))
  {
    var e := Entry(t.page, t.query, t.depth, t.parent);
    var h' := Commit(h, t);
    forall i | 0 <= i < |h'.entries| ensures Grounded(h'.entries, i) {
      ReplacedGrounded(h, e, i);
    }
  }

  lemma ReplacedGrounded(h: History, e: Entry, i: nat)
    requires Stacked(h) && i < |h.entries| && e.depth == Current(h).depth
    requires View(h).drawer == None && e.depth == 0 ==> Shown(e).drawer == None
    ensures Grounded(h.entries[h.index := e], i)
  {
    assert Grounded(h.entries, i);
    var entries, d := h.entries[h.index := e], h.entries[i].depth;
    if d > 0 {
      SameBottom(h, e, i - d);
      forall j | i - d < j <= i ensures entries[j].depth == j - (i - d) {
        assert h.entries[j].depth == j - (i - d);
      }
    }
  }

  lemma SameBottom(h: History, e: Entry, i: nat)
    requires WellFormed(h) && i < |h.entries| && e.depth == Current(h).depth
    requires View(h).drawer == None && e.depth == 0 ==> Shown(e).drawer == None
    requires h.entries[i].depth == 0 && Shown(h.entries[i]).drawer == None
    ensures h.entries[h.index := e][i].depth == 0 && Shown(h.entries[h.index := e][i]).drawer == None
  {
  }

  lemma CloseShowsNoDrawer(page: Page, query: Query)
    ensures Committed(page, WithoutDrawer(query)).drawer == None
  {
    WithoutDrawerRemovesItsKeys(query);
  }

  lemma StepKeepsStacked(h: History, a: Action)
    requires Stacked(h) && Permitted(h, a)
    ensures Stacked(Step(h, a))
  {
    var e, shown := Current(h), View(h);
    match a
    case Navigate(page) =>
      PushKeepsStacked(h, Transition(page, map[], Push, 0, None));
    case Visit(page, query) =>
      PushKeepsStacked(h, Transition(page, query, Push, 0, None));
    case UpdateQuery(updates, mode) =>
      var next := QueryWith(shown.query, updates);
      if next != shown.query {
        var t := Transition(shown.page, next, mode, e.depth, e.parent);
        if mode == Push {
          PushKeepsStacked(h, t);
        } else {
          if shown.drawer == None { FiltersKeepDrawerFree(shown.page, e, updates); }
          ReplaceKeepsStacked(h, t);
        }
      }
    case OpenDrawer(kind, id) =>
      var t := OpenTransition(shown, e.depth, e.parent, kind, id);
      if t.mode == Push { PushKeepsStacked(h, t); } else { ReplaceKeepsStacked(h, t); }
    case SetTab(tab) =>
      var t := TabTransition(shown, e.depth, e.parent, tab);
      if t.Some? {
        if t.value.mode == Push { PushKeepsStacked(h, t.value); } else { ReplaceKeepsStacked(h, t.value); }
      }
    case CloseDrawer =>
      if e.depth == 0 {
        CloseShowsNoDrawer(shown.page, shown.query);
        ReplaceKeepsStacked(h, CloseTransition(shown, 0).transition);
      }
    case Traverse(_) =>
    case Reload =>
      LoadedShowsTheSame(e);
      forall i | 0 <= i < |h.entries| ensures Grounded(Step(h, Reload).entries, i) {
        ReplacedGrounded(h, Loaded(e), i);
      }
  }

  /** The actions of a run, each applied where the last one left the history. */
  function Run(h: History, actions: seq<Action>): History
    requires WellFormed(h)
    ensures WellFormed(Run(h, actions))
    decreases |actions|
  {
    if actions == [] then h else Run(Step(h, actions[0]), actions[1..])
  }

  predicate AllPermitted(h: History, actions: seq<Action>)
    requires WellFormed(h)
    decreases |actions|
  {
    actions == [] || (Permitted(h, actions[0]) && AllPermitted(Step(h, actions[0]), actions[1..]))
  }

  lemma {:induction false} RunsStayStacked(h: History, actions: seq<Action>)
    requires Stacked(h) && AllPermitted(h, actions)
    ensures Stacked(Run(h, actions))
    decreases |actions|
  {
    if actions != [] {
      StepKeepsStacked(h, actions[0]);
      RunsStayStacked(Step(h, actions[0]), actions[1..]);
    }
  }

  /** The history of a tab just opened at a URL. */
  predicate JustLoaded(h: History) { |h.entries| == 1 && h.index == 0 && h.entries[0].depth == 0 }

  lemma LoadedIsStacked(h: History)
    requires JustLoaded(h)
    ensures Stacked(h) && DrawersShow(h)
  {
  }

  /** Every run from a first load keeps the stack grounded. */
  lemma RunsFromALoadStayStacked(h: History, actions: seq<Action>)
    requires JustLoaded(h) && AllPermitted(h, actions)
    ensures Stacked(Run(h, actions))
  {
    LoadedIsStacked(h);
    RunsStayStacked(h, actions);
  }

  lemma CloseGoesBack(h: History)
    requires Stacked(h) && Current(h).depth > 0
    ensures Current(h).depth <= h.index && Step(h, CloseDrawer) == h.(index := h.index - Current(h).depth)
    ensures View(Step(h, CloseDrawer)).drawer == None && Current(Step(h, CloseDrawer)).depth == 0
  {
    assert Grounded(h.entries, h.index);
    CloseIsGo(h);
    var bottom := h.index - Current(h).depth;
    assert h.entries[bottom].depth == 0 && Shown(h.entries[bottom]).drawer == None;
  }

  lemma CloseIsGo(h: History)
    requires WellFormed(h) && Current(h).depth > 0
    ensures Step(h, CloseDrawer) == Go(h, 0 - Current(h).depth)
  {
  }

  lemma CloseInPlace(h: History)
    requires WellFormed(h) && Current(h).depth == 0
    ensures var h' := Step(h, CloseDrawer);
            && View(h').drawer == None && Current(h').depth == 0
            && h'.index == h.index && |h'.entries| == |h.entries|
            && forall i :: 0 <= i < |h.entries| && i != h.index ==> h'.entries[i] == h.entries[i]
  {
    var page, query := View(h).page, WithoutDrawer(View(h).query);
    assert Step(h, CloseDrawer) == Commit(h, Transition(page, query, Replace, 0, None));
    ReplacedShows(h, Transition(page, query, Replace, 0, None));
    CloseShowsNoDrawer(page, View(h).query);
  }

  lemma ReplacedShows(h: History, t: Transition)
    requires WellFormed(h) && t.mode == Replace
    ensures var h' := Commit(h, t);
            && View(h') == Committed(t.page, t.query) && Current(h').depth == t.depth
            && h'.index == h.index && |h'.entries| == |h.entries|
            && forall i :: 0 <= i < |h.entries| && i != h.index ==> h'.entries[i] == h.entries[i]
  {
  }

  /** Closing a drawer always lands on a drawer-free location of depth 0. From an overlay it goes
      back to the entry the overlay was opened from and changes no entry; a deep link closes in
      place without leaving its entry. */
  lemma CloseLandsDrawerFree(h: History)
    requires Stacked(h)
    ensures var h' := Step(h, CloseDrawer);
            && View(h').drawer == None && Current(h').depth == 0
            && (if Current(h).depth > 0
                then h' == h.(index := h.index - Current(h).depth)
                else h'.index == h.index && |h'.entries| == |h.entries|
                     && forall i :: 0 <= i < |h.entries| && i != h.index ==> h'.entries[i] == h.entries[i])
  {
    if Current(h).depth > 0 { CloseGoesBack(h); } else { CloseInPlace(h); }
  }

  /** Back from an overlay entry goes to the entry below it: one depth less, and out of the drawer
      from depth 1. */
  lemma BackUnwindsTheOverlay(h: History)
    requires Stacked(h) && Current(h).depth > 0
    ensures var h' := Step(h, Traverse(-1));
            h'.entries == h.entries && h'.index == h.index - 1 && Current(h').depth == Current(h).depth - 1
            && (Current(h).depth == 1 ==> View(h').drawer == None)
  {
    assert Grounded(h.entries, h.index);
    var d := Current(h).depth;
    if d > 1 { assert h.entries[h.index - 1].depth == d - 1; }
  }

  // ------------------------------------------------------ filter changes, exactly

  /** A filter change pushed as a new entry keeps the stack grounded exactly when the entry it is
      made on has depth 0. */
  lemma FilterPushSafeExactlyAtDepthZero(h: History, updates: Updates)
    requires Stacked(h) && FilterUpdates(updates) && QueryWith(View(h).query, updates) != View(h).query
    ensures Stacked(Step(h, UpdateQuery(updates, Push))) <==> Current(h).depth == 0
  {
    var a := UpdateQuery(updates, Push);
    if Current(h).depth == 0 {
      StepKeepsStacked(h, a);
    } else {
      var h' := Step(h, a);
      var i, d := h.index + 1, Current(h).depth;
      assert h'.entries[i].depth == d && h'.entries[i - 1].depth == d;
      assert !Grounded(h'.entries, i);
    }
  }

  /** At every moment of the run the stack is grounded. */
  predicate AlwaysStacked(h: History, actions: seq<Action>)
    requires WellFormed(h)
    decreases |actions|
  {
    Stacked(h) && (actions == [] || AlwaysStacked(Step(h, actions[0]), actions[1..]))
  }

  /** Filter changes are the only queries updated. */
  predicate OnlyFilters(actions: seq<Action>) {
    forall k :: 0 <= k < |actions| && actions[k].UpdateQuery? ==> FilterUpdates(actions[k].updates)
  }

  /** Over every run, whose query updates are filter changes: the stack is grounded at every moment if
      and only if no filter change is pushed onto an overlay entry. */
  lemma {:induction false} StackedExactlyWhenPermitted(h: History, actions: seq<Action>)
    requires Stacked(h) && OnlyFilters(actions)
    ensures AlwaysStacked(h, actions) <==> AllPermitted(h, actions)
    decreases |actions|
  {
    if actions != [] {
      var a := actions[0];
      if Permitted(h, a) {
        StepKeepsStacked(h, a);
        StackedExactlyWhenPermitted(Step(h, a), actions[1..]);
      } else {
        assert FilterUpdates(a.updates);
        FilterPushSafeExactlyAtDepthZero(h, a.updates);
        assert !Stacked(Step(h, a));
      }
    }
  }

  // ---------------------------------------------- when no open drawer means depth 0

  predicate GoodId(id: string) { Admissible("id", id) }

  predicate DrawersShow(h: History) {
    forall i :: 0 <= i < |h.entries| && h.entries[i].depth > 0 ==> NamesDrawer(h.entries[i].query)
  }

  /** A drawer is opened with an id that survives the URL, or it replaces a deep-linked drawer in
      place. */
  predicate SafeOpen(h: History, a: Action)
    requires WellFormed(h)
  {
    a.OpenDrawer? ==> GoodId(a.id) || (View(h).drawer.Some? && Current(h).depth == 0)
  }

  lemma KindRoundTrip(kind: DrawerKind)
    ensures KindOf(KindName(kind)) == Some(kind) && Admissible("drawer", KindName(kind))
  {
    var name := KindName(kind);
    KindIsItsName(kind);
    match kind { case _ => ShortName(name); }
  }

  lemma {:induction false} ShortName(name: string)
    ensures Utf16Length(name) <= 2 * |name|
  {
    if name != "" { ShortName(name[1..]); }
  }

  /** The query names a drawer that survives being printed and read. */
  predicate NamesDrawer(q: Query) {
    && "drawer" in q && Admissible("drawer", q["drawer"]) && KindOf(q["drawer"]).Some?
    && "id" in q && Admissible("id", q["id"])
  }

  lemma NamesDrawerExactlyWhenShown(page: Page, q: Query)
    ensures NamesDrawer(q) <==> Committed(page, q).drawer.Some?
    ensures NamesDrawer(q) ==> NamesDrawer(Committed(page, q).query)
  {
    var kept := map key | key in q && Admissible(key, q[key]) :: q[key];
  }

  lemma OpeningNames(q: Query, kind: DrawerKind, id: string)
    requires GoodId(id)
    ensures NamesDrawer(QueryWith(q, [("drawer", Some(KindName(kind))), ("id", Some(id)), ("tab", None)]))
  {
    KindRoundTrip(kind);
    var updates: Updates := [("drawer", Some(KindName(kind))), ("id", Some(id)), ("tab", None)];
    assert updates[..2][..1] == updates[..1] && updates[..1][..0] == [];
    assert updates[..1][0] == updates[0] && updates[..2][1] == updates[1];
    assert QueryWith(q, updates[..1]) == q["drawer" := KindName(kind)];
    assert QueryWith(q, updates[..2]) == q["drawer" := KindName(kind)]["id" := id];
    assert QueryWith(q, updates) == q["drawer" := KindName(kind)]["id" := id] - {"tab"};
  }

  /** Changing other keys, or the tab, keeps naming the drawer. */
  lemma UpdatesKeepNaming(q: Query, updates: Updates)
    requires NamesDrawer(q) && forall k :: 0 <= k < |updates| ==> updates[k].0 != "drawer" && updates[k].0 != "id"
    ensures NamesDrawer(QueryWith(q, updates))
  {
    QueryWithKeeps(q, updates, "drawer");
    QueryWithKeeps(q, updates, "id");
  }

  lemma CommitKeepsDrawersShown(h: History, t: Transition)
    requires Stacked(h) && DrawersShow(h) && (t.depth > 0 ==> NamesDrawer(t.query))
    ensures DrawersShow(Commit(h, t))
  {
  }

  lemma OpenKeepsDrawersShown(h: History, a: Action)
    requires Stacked(h) && DrawersShow(h) && a.OpenDrawer? && SafeOpen(h, a)
    ensures DrawersShow(Step(h, a))
  {
    var e, shown := Current(h), View(h);
    if GoodId(a.id) { OpeningNames(shown.query, a.kind, a.id); }
    CommitKeepsDrawersShown(h, OpenTransition(shown, e.depth, e.parent, a.kind, a.id));
  }

  lemma StepKeepsDrawersShown(h: History, a: Action)
    requires Stacked(h) && DrawersShow(h) && Permitted(h, a) && SafeOpen(h, a)
    ensures DrawersShow(Step(h, a))
  {
    var e, shown := Current(h), View(h);
    NamesDrawerExactlyWhenShown(e.page, e.query);
    match a
    case OpenDrawer(_, _) => OpenKeepsDrawersShown(h, a);
    case SetTab(tab) =>
      var t := TabTransition(shown, e.depth, e.parent, tab);
      if t.Some? {
        UpdatesKeepNaming(shown.query, [("tab", if tab == "overview" then None else Some(tab))]);
        CommitKeepsDrawersShown(h, t.value);
      }
    case UpdateQuery(updates, mode) =>
      var next := QueryWith(shown.query, updates);
      if e.depth > 0 { UpdatesKeepNaming(shown.query, updates); }
      CommitKeepsDrawersShown(h, Transition(shown.page, next, mode, e.depth, e.parent));
    case CloseDrawer =>
      CommitKeepsDrawersShown(h, Transition(shown.page, WithoutDrawer(shown.query), Replace, 0, None));
    case Navigate(page) => CommitKeepsDrawersShown(h, Transition(page, map[], Push, 0, None));
    case Visit(page, query) => CommitKeepsDrawersShown(h, Transition(page, query, Push, 0, None));
    case Traverse(_) =>
    case Reload =>
  }

  predicate HiddenOnlyAtDepthZero(h: History)
    requires WellFormed(h)
  {
    View(h).drawer == None ==> Current(h).depth == 0
  }

  lemma BadIdShowsNothing(page: Page, q: Query, kind: DrawerKind, id: string)
    requires !GoodId(id)
    ensures Committed(page, QueryWith(q, [("drawer", Some(KindName(kind))), ("id", Some(id)), ("tab", None)])).drawer
            == None
  {
    var updates: Updates := [("drawer", Some(KindName(kind))), ("id", Some(id)), ("tab", None)];
    assert updates[..2][..1] == updates[..1] && updates[..2][1] == updates[1] && updates[2] == ("tab", None);
    var next := QueryWith(q, updates);
    assert next == QueryWith(q, updates[..2]) - {"tab"};
    assert id != "" ==> next["id"] == id;
    assert id == "" ==> "id" !in next;
    NamesDrawerExactlyWhenShown(page, next);
  }

  /** One opening, exactly: afterwards a location without a drawer is at depth 0 if and only if the id
      survives the URL (it is not empty and has at most 500 UTF-16 code units) or the opening replaced
      a deep-linked drawer in place. */
  lemma OpeningIsSafeExactly(h: History, kind: DrawerKind, id: string)
    requires Stacked(h)
    ensures HiddenOnlyAtDepthZero(Step(h, OpenDrawer(kind, id))) <==> SafeOpen(h, OpenDrawer(kind, id))
  {
    var e, shown := Current(h), View(h);
    var t := OpenTransition(shown, e.depth, e.parent, kind, id);
    if GoodId(id) {
      OpeningNames(shown.query, kind, id);
      NamesDrawerExactlyWhenShown(shown.page, t.query);
    } else {
      BadIdShowsNothing(shown.page, shown.query, kind, id);
    }
  }

  /** At every moment of the run a location without a drawer is at depth 0. */
  predicate AlwaysHiddenAtDepthZero(h: History, actions: seq<Action>)
    requires WellFormed(h)
    decreases |actions|
  {
    HiddenOnlyAtDepthZero(h) && (actions == [] || AlwaysHiddenAtDepthZero(Step(h, actions[0]), actions[1..]))
  }

  predicate AllSafeOpens(h: History, actions: seq<Action>)
    requires WellFormed(h)
    decreases |actions|
  {
    actions == [] || (SafeOpen(h, actions[0]) && AllSafeOpens(Step(h, actions[0]), actions[1..]))
  }

  /** Over every run: no drawer being shown means depth 0 at every moment, so that the filter changes
      made then are safe, if and only if every drawer of the run is opened safely. */
  lemma {:induction false} NoDrawerMeansDepthZeroExactly(h: History, actions: seq<Action>)
    requires Stacked(h) && DrawersShow(h) && AllPermitted(h, actions)
    ensures AlwaysHiddenAtDepthZero(h, actions) <==> AllSafeOpens(h, actions)
    decreases |actions|
  {
    NamesDrawerExactlyWhenShown(Current(h).page, Current(h).query);
    if actions != [] {
      var a := actions[0];
      if a.OpenDrawer? { OpeningIsSafeExactly(h, a.kind, a.id); }
      if SafeOpen(h, a) {
        StepKeepsStacked(h, a);
        StepKeepsDrawersShown(h, a);
        NoDrawerMeansDepthZeroExactly(Step(h, a), actions[1..]);
      } else {
        assert !HiddenOnlyAtDepthZero(Step(h, a));
      }
    }
  }

  /** The same from a first load. */
  lemma FromALoadNoDrawerMeansDepthZero(h: History, actions: seq<Action>)
    requires JustLoaded(h) && AllPermitted(h, actions)
    ensures AlwaysHiddenAtDepthZero(h, actions) <==> AllSafeOpens(h, actions)
  {
    LoadedIsStacked(h);
    NoDrawerMeansDepthZeroExactly(h, actions);
  }

  /** What an unsafe opening leads to, for every history and id: no drawer is shown, so a filter change
      is allowed, and pushing one breaks the stack. */
  lemma UnsafeOpeningBreaksTheStack(h: History, kind: DrawerKind, id: string, updates: Updates)
    requires Stacked(h) && !SafeOpen(h, OpenDrawer(kind, id)) && FilterUpdates(updates)
    requires var shown := View(Step(h, OpenDrawer(kind, id))); QueryWith(shown.query, updates) != shown.query
    ensures var h' := Step(h, OpenDrawer(kind, id));
            View(h').drawer == None && !Stacked(Step(h', UpdateQuery(updates, Push)))
  {
    OpeningIsSafeExactly(h, kind, id);
    StepKeepsStacked(h, OpenDrawer(kind, id));
    FilterPushSafeExactlyAtDepthZero(Step(h, OpenDrawer(kind, id)), updates);
  }
}
