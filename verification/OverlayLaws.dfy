/** What each action of the client shows, and what it leaves of the history, said outright. */
module OverlayLaws {
  import opened Options
  import opened FormCodec
  import opened Navigation
  import opened NavigationLaws
  import opened OverlayHistory

  /** The two queries say the same under a name. */
  predicate Same(a: Query, b: Query, key: string) {
    (key in a <==> key in b) && (key in a ==> a[key] == b[key])
  }

  /** `k` is the last update of its name. */
  predicate LastOf(updates: Updates, k: nat) {
    k < |updates| && forall j :: k < j < |updates| ==> updates[j].0 != updates[k].0
  }

  predicate Untouched(updates: Updates, key: string) {
    forall k :: 0 <= k < |updates| ==> updates[k].0 != key
  }

  // --------------------------------------------------------------- updated queries

  lemma {:induction false} LastUpdateCounts(query: Query, updates: Updates, k: nat)
    requires LastOf(updates, k)
    ensures var (key, value), next := updates[k], QueryWith(query, updates);
            if value.Some? && value.value != "" then key in next && next[key] == value.value else key !in next
  {
    if k < |updates| - 1 {
      assert updates[|updates| - 1].0 != updates[k].0;
      LastUpdateCounts(query, updates[..|updates| - 1], k);
    }
  }

  lemma UntouchedStays(query: Query, updates: Updates, key: string)
    requires Untouched(updates, key)
    ensures Same(QueryWith(query, updates), query, key)
  {
    QueryWithKeeps(query, updates, key);
  }

  // ----------------------------------------------------------------- what is shown

  /** Outside the drawer, a committed query shows what it says as far as it survives a URL. */
  lemma CommittedKey(page: Page, query: Query, key: string)
    requires key !in DRAWER_KEYS
    ensures var shown := Committed(page, query).query;
            && (key in shown <==> key in query && Admissible(key, query[key]))
            && (key in shown ==> shown[key] == query[key])
  {
  }

  lemma CommittedPage(page: Page, query: Query)
    ensures Committed(page, query).page == if Returns(query) then Connections else page
  {
  }

  lemma ShownSurvives(e: Entry)
    ensures forall key :: key in Shown(e).query ==> Admissible(key, Shown(e).query[key])
    ensures Returns(Shown(e).query) ==> Shown(e).page == Connections
  {
  }

  lemma AskedIsNormalised(page: Page, raw: Query, d: Drawer)
    requires Asks(raw, d) && d.id != ""
    ensures Normalised(page, raw).drawer == Some(d)
  {
    KindRoundTrip(d.kind);
  }

  lemma AskingSurvives(query: Query, d: Drawer)
    requires Asks(query, d) && GoodId(d.id)
    ensures Asks(Surviving(query), d)
  {
    KindRoundTrip(d.kind);
    if "tab" in query && query["tab"] in DrawerTabs(d.kind) { TabIsAdmissible(d.kind, query["tab"]); }
  }

  /** Committing a query that asks for a drawer shows it. */
  lemma CommittedDrawer(page: Page, query: Query, d: Drawer)
    requires Asks(query, d) && GoodId(d.id)
    ensures Committed(page, query).drawer == Some(d)
  {
    AskingSurvives(query, d);
    AskedIsNormalised(if Returns(query) then Connections else page, Surviving(query), d);
  }

  lemma TabIsAdmissible(kind: DrawerKind, tab: string)
    requires tab in DrawerTabs(kind)
    ensures Admissible("tab", tab) && "overview" in DrawerTabs(kind)
  {
    assert |tab| <= 13 by { match kind { case _ => } }
    ShortName(tab);
  }

  /** The same but for the drawer: page and every other value are as before. */
  ghost predicate SamePlace(a: Location, b: Location) {
    a.page == b.page && forall key :: key !in DRAWER_KEYS ==> Same(a.query, b.query, key)
  }

  /** Committing a query that differs in the drawer keys only stays in place. */
  lemma CommittedInPlace(e: Entry, query: Query)
    requires forall key :: key !in DRAWER_KEYS ==> Same(query, Shown(e).query, key)
    ensures SamePlace(Committed(Shown(e).page, query), Shown(e))
  {
    var shown := Shown(e);
    ShownSurvives(e);
    assert Same(query, shown.query, "github_setup") && Same(query, shown.query, "entra_setup");
    CommittedPage(shown.page, query);
    forall key | key !in DRAWER_KEYS ensures Same(Committed(shown.page, query).query, shown.query, key) {
      CommittedKey(shown.page, query, key);
    }
  }

  // ----------------------------------------------------------------------- actions

  /** Opening shows the drawer of that kind and id, on its overview, over the same page and filters. */
  lemma OpenedDrawerIsShown(h: History, kind: DrawerKind, id: string)
    requires WellFormed(h) && GoodId(id)
    ensures var shown := View(Step(h, OpenDrawer(kind, id)));
            shown.drawer == Some(Drawer(kind, id, "overview")) && SamePlace(shown, View(h))
  {
    var next := QueryWith(View(h).query, Opening(kind, id));
    OpeningAsks(View(h).query, kind, id);
    CommittedDrawer(View(h).page, next, Drawer(kind, id, "overview"));
    CommittedInPlace(Current(h), next);
    OpeningCommits(h, kind, id);
  }

  lemma OpeningCommits(h: History, kind: DrawerKind, id: string)
    requires WellFormed(h)
    ensures View(Step(h, OpenDrawer(kind, id))) == Committed(View(h).page, QueryWith(View(h).query, Opening(kind, id)))
  {
    var t := OpenTransition(View(h), Current(h).depth, Current(h).parent, kind, id);
    CommitShows(h, t);
    assert Step(h, OpenDrawer(kind, id)) == Commit(h, t);
  }

  function Opening(kind: DrawerKind, id: string): Updates {
    [("drawer", Some(KindName(kind))), ("id", Some(id)), ("tab", None)]
  }

  lemma OpeningAsks(query: Query, kind: DrawerKind, id: string)
    requires id != ""
    ensures var next := QueryWith(query, Opening(kind, id));
            Asks(next, Drawer(kind, id, "overview")) && forall key :: key !in DRAWER_KEYS ==> Same(next, query, key)
  {
    var updates := Opening(kind, id);
    assert KindName(kind) != "" by { match kind { case _ => } }
    LastUpdateCounts(query, updates, 0);
    LastUpdateCounts(query, updates, 1);
    LastUpdateCounts(query, updates, 2);
    forall key | key !in DRAWER_KEYS ensures Same(QueryWith(query, updates), query, key) {
      UntouchedStays(query, updates, key);
    }
  }

  /** Navigating shows the page with an empty query, whatever was shown. */
  lemma NavigatedPageIsShown(h: History, page: Page)
    requires WellFormed(h)
    ensures View(Step(h, Navigate(page))) == Location(page, map[], None)
  {
    assert Surviving(map[]) == map[];
    assert Committed(page, map[]) == Location(page, map[], None);
  }

  lemma ShownDrawerIsAsked(e: Entry)
    ensures Shown(e).drawer.Some? ==>
              var d := Shown(e).drawer.value;
              Asks(Shown(e).query, d) && GoodId(d.id) && d.tab in DrawerTabs(d.kind)
  {
    if Shown(e).drawer.Some? {
      TabIsAdmissible(Shown(e).drawer.value.kind, DrawerTabs(Shown(e).drawer.value.kind)[0]);
    }
  }

  function Choosing(tab: string): Updates { [("tab", if tab == "overview" then None else Some(tab))] }

  lemma ChoosingAsks(query: Query, d: Drawer, tab: string)
    requires Asks(query, d) && "overview" in DrawerTabs(d.kind)
    ensures var next := QueryWith(query, Choosing(tab));
            && Asks(next, d.(tab := if tab in DrawerTabs(d.kind) then tab else "overview"))
            && forall key :: key !in DRAWER_KEYS ==> Same(next, query, key)
  {
    var updates := Choosing(tab);
    LastUpdateCounts(query, updates, 0);
    UntouchedStays(query, updates, "drawer");
    UntouchedStays(query, updates, "id");
    forall key | key !in DRAWER_KEYS ensures Same(QueryWith(query, updates), query, key) {
      UntouchedStays(query, updates, key);
    }
  }

  /** Choosing a tab shows that tab of the same drawer, or the overview when the drawer has no such tab.
      Without a drawer nothing happens. */
  lemma ChosenTabIsShown(h: History, tab: string)
    requires WellFormed(h)
    ensures View(h).drawer == None ==> Step(h, SetTab(tab)) == h
    ensures View(h).drawer.Some? ==>
              var d, shown := View(h).drawer.value, View(Step(h, SetTab(tab)));
              && shown.drawer == Some(Drawer(d.kind, d.id, if tab in DrawerTabs(d.kind) then tab else "overview"))
              && SamePlace(shown, View(h))
  {
    if View(h).drawer.Some? {
      ShownDrawerIsAsked(Current(h));
      if View(h).drawer.value.tab != tab { TabIsCommitted(h, View(h), tab); }
    }
  }

  lemma TabIsCommitted(h: History, before: Location, tab: string)
    requires WellFormed(h) && View(h) == before && before.drawer.Some? && before.drawer.value.tab != tab
    requires Asks(before.query, before.drawer.value) && GoodId(before.drawer.value.id)
    ensures var d, shown := before.drawer.value, View(Step(h, SetTab(tab)));
            && shown.drawer == Some(Drawer(d.kind, d.id, if tab in DrawerTabs(d.kind) then tab else "overview"))
            && SamePlace(shown, before)
  {
    var d, next := before.drawer.value, QueryWith(before.query, Choosing(tab));
    KindIsItsName(d.kind);
    ChoosingAsks(before.query, d, tab);
    CommittedDrawer(before.page, next, d.(tab := if tab in DrawerTabs(d.kind) then tab else "overview"));
    CommittedInPlace(Current(h), next);
    SetTabCommits(h, tab);
  }

  lemma SetTabCommits(h: History, tab: string)
    requires WellFormed(h) && View(h).drawer.Some? && View(h).drawer.value.tab != tab
    ensures View(Step(h, SetTab(tab))) == Committed(View(h).page, QueryWith(View(h).query, Choosing(tab)))
  {
    var t := TabTransition(View(h), Current(h).depth, Current(h).parent, tab).value;
    CommitShows(h, t);
    assert Step(h, SetTab(tab)) == Commit(h, t);
  }

  lemma CommitShows(h: History, t: Transition)
    requires WellFormed(h)
    ensures View(Commit(h, t)) == Committed(t.page, t.query)
  {
  }

  /** Closing at depth 0 keeps page and filters and shows no drawer. */
  lemma ClosedInPlaceShowsThePage(h: History)
    requires WellFormed(h) && Current(h).depth == 0
    ensures var shown := View(Step(h, CloseDrawer));
            shown == Location(View(h).page, View(h).query - DRAWER_KEYS, None)
  {
    var query := View(h).query;
    WithoutDrawerRemovesItsKeys(query);
    CommittedInPlace(Current(h), WithoutDrawer(query));
    ShownSurvives(Current(h));
    assert Surviving(query - DRAWER_KEYS) == query - DRAWER_KEYS;
    assert (query - DRAWER_KEYS) - DRAWER_KEYS == query - DRAWER_KEYS;
  }

  /** An update of the query: the last value given for a name is shown when it survives a URL, and the
      name is gone otherwise; names that are not updated say what they did. */
  lemma UpdatesAreShown(h: History, updates: Updates, mode: Mode, k: nat)
    requires WellFormed(h) && LastOf(updates, k) && updates[k].0 !in DRAWER_KEYS
    ensures var (key, value), query := updates[k], View(Step(h, UpdateQuery(updates, mode))).query;
            if value.Some? && Admissible(key, value.value) then key in query && query[key] == value.value
            else key !in query
  {
    var next := QueryWith(View(h).query, updates);
    LastUpdateCounts(View(h).query, updates, k);
    ShownSurvives(Current(h));
    CommittedKey(View(h).page, next, updates[k].0);
  }

  lemma OthersAreKept(h: History, updates: Updates, mode: Mode, key: string)
    requires WellFormed(h) && Untouched(updates, key) && key !in DRAWER_KEYS
    ensures Same(View(Step(h, UpdateQuery(updates, mode))).query, View(h).query, key)
  {
    var next := QueryWith(View(h).query, updates);
    UntouchedStays(View(h).query, updates, key);
    ShownSurvives(Current(h));
    CommittedKey(View(h).page, next, key);
  }

  /** A filter change keeps the drawer that is shown, and the page unless it sets a setup return. */
  lemma FiltersKeepDrawerAndPage(h: History, updates: Updates, mode: Mode)
    requires WellFormed(h) && FilterUpdates(updates)
    ensures var shown := View(Step(h, UpdateQuery(updates, mode)));
            && shown.drawer == View(h).drawer
            && (Untouched(updates, "github_setup") && Untouched(updates, "entra_setup") ==> shown.page == View(h).page)
  {
    var before, next := View(h), QueryWith(View(h).query, updates);
    if next != before.query {
      UntouchedStays(before.query, updates, "drawer");
      UntouchedStays(before.query, updates, "id");
      UntouchedStays(before.query, updates, "tab");
      ShownDrawerIsAsked(Current(h));
      if before.drawer.Some? {
        CommittedDrawer(before.page, next, before.drawer.value);
      } else {
        FiltersKeepDrawerFree(before.page, Current(h), updates);
      }
      if Untouched(updates, "github_setup") && Untouched(updates, "entra_setup") {
        UntouchedStays(before.query, updates, "github_setup");
        UntouchedStays(before.query, updates, "entra_setup");
        ShownSurvives(Current(h));
        CommittedPage(before.page, next);
      }
    }
  }

  // ----------------------------------------------------------------------- history

  /** A new entry after the current one; what was ahead is gone. */
  predicate Pushed(h: History, h': History, depth: nat)
    requires WellFormed(h) && WellFormed(h')
  {
    && h'.index == h.index + 1 && |h'.entries| == h.index + 2
    && h'.entries[..h.index + 1] == h.entries[..h.index + 1]
    && Current(h').depth == depth
  }

  predicate Replaced(h: History, h': History, depth: nat)
    requires WellFormed(h) && WellFormed(h')
  {
    && h'.index == h.index && |h'.entries| == |h.entries|
    && (forall k :: 0 <= k < |h.entries| && k != h.index ==> h'.entries[k] == h.entries[k])
    && Current(h').depth == depth
  }

  /** Which actions push and which replace: a drawer that came with the URL is edited in place, any other
      drawer stacks one deeper; filters go as they are asked to at the depth they are at. */
  lemma HistoryGrowsExactly(h: History, a: Action)
    requires WellFormed(h)
    ensures var before, depth, h' := View(h), Current(h).depth, Step(h, a);
            match a
            case Navigate(page) =>
              if before == Location(page, map[], None) then h' == h else Pushed(h, h', 0)
            case Visit(_, _) => Pushed(h, h', 0)
            case UpdateQuery(updates, mode) =>
              h' == h || (if mode == Push then Pushed(h, h', depth) else Replaced(h, h', depth))
            case OpenDrawer(_, _) =>
              if before.drawer.Some? && depth == 0 then Replaced(h, h', 0) else Pushed(h, h', depth + 1)
            case SetTab(tab) =>
              if before.drawer == None || before.drawer.value.tab == tab then h' == h
              else if depth == 0 then Replaced(h, h', 0) else Pushed(h, h', depth + 1)
            case CloseDrawer =>
              if depth == 0 then Replaced(h, h', 0) else h'.entries == h.entries
            case Traverse(_) => h'.entries == h.entries
            case Reload => Replaced(h, h', depth)
  {
    ShownQuery(Current(h));
  }

  // --------------------------------------------------------- opening, leafing, closing

  function Actions(h: History, actions: seq<Action>): (h': History)
    requires WellFormed(h)
    ensures WellFormed(h')
    decreases |actions|
  {
    if actions == [] then h else Actions(Step(h, actions[0]), actions[1..])
  }

  predicate OnlyDrawers(actions: seq<Action>) {
    forall k :: 0 <= k < |actions| ==> actions[k].OpenDrawer? || actions[k].SetTab?
  }

  /** The overlay was climbed from `base`, one entry for each level. */
  predicate Climbed(base: History, h: History) {
    && WellFormed(base) && Current(base).depth == 0 && View(base).drawer == None
    && WellFormed(h) && h.index == base.index + Current(h).depth
    && h.entries[..base.index + 1] == base.entries[..base.index + 1]
  }

  lemma DrawersClimb(base: History, h: History, a: Action)
    requires Climbed(base, h) && (a.OpenDrawer? || a.SetTab?)
    ensures Climbed(base, Step(h, a))
  {
    HistoryGrowsExactly(h, a);
    if Current(h).depth == 0 { assert Current(h) == h.entries[..base.index + 1][base.index] == Current(base); }
    var h' := Step(h, a);
    if h' != h {
      assert Pushed(h, h', Current(h).depth + 1);
      assert h'.entries[..base.index + 1] == h'.entries[..h.index + 1][..base.index + 1];
      assert h.entries[..base.index + 1] == h.entries[..h.index + 1][..base.index + 1];
    }
  }

  lemma {:induction false} DrawerRunsClimb(base: History, h: History, actions: seq<Action>)
    requires Climbed(base, h) && OnlyDrawers(actions)
    ensures Climbed(base, Actions(h, actions))
    decreases |actions|
  {
    if actions != [] {
      DrawersClimb(base, h, actions[0]);
      DrawerRunsClimb(base, Step(h, actions[0]), actions[1..]);
    }
  }

  /** However many drawers are opened and tabs chosen over a page without one, closing shows that page and
      query again, at the place in the history where the first drawer was opened. */
  lemma ClosingReturnsToTheStart(h: History, actions: seq<Action>)
    requires WellFormed(h) && Current(h).depth == 0 && View(h).drawer == None && OnlyDrawers(actions)
    ensures var h' := Step(Actions(h, actions), CloseDrawer); h'.index == h.index && View(h') == View(h)
  {
    DrawerRunsClimb(h, h, actions);
    var top := Actions(h, actions);
    assert top.entries[..h.index + 1][h.index] == h.entries[..h.index + 1][h.index];
    if Current(top).depth == 0 {
      ClosedInPlaceShowsThePage(top);
      assert View(h).query - DRAWER_KEYS == View(h).query;
    }
  }
}
