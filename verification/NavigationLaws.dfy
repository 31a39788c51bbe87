/** What a URL shows, said outright: which value of a repeated name counts, which page a path names and
    which drawer a query asks for. */
module NavigationLaws {
  import opened Options
  import opened FormCodec
  import opened Navigation

  // ------------------------------------------------------------------------ values

  /** The value is read at all: not empty and at most 500 UTF-16 code units. */
  predicate Readable(pair: Pair) { pair.1 != "" && Utf16Length(pair.1) <= 500 && pair.0 != "__proto__" }

  /** `k` is the last readable pair of its name. */
  predicate Counts(pairs: seq<Pair>, k: nat) {
    k < |pairs| && Readable(pairs[k]) && forall j :: k < j < |pairs| && pairs[j].0 == pairs[k].0 ==> !Readable(pairs[j])
  }

  /** Of a repeated name the last readable value counts. */
  lemma {:induction false} LastReadableCounts(pairs: seq<Pair>, k: nat)
    requires Counts(pairs, k)
    ensures pairs[k].0 in Collected(pairs) && Collected(pairs)[pairs[k].0] == pairs[k].1
  {
    if k < |pairs| - 1 {
      var front := pairs[..|pairs| - 1];
      assert forall j :: k < j < |front| ==> front[j] == pairs[j];
      LastReadableCounts(front, k);
    }
  }

  /** A name without a readable value is not read. */
  lemma UnreadableIsAbsent(pairs: seq<Pair>, key: string)
    requires forall k :: 0 <= k < |pairs| && pairs[k].0 == key ==> !Readable(pairs[k])
    ensures key !in Collected(pairs)
  {
    var n := |pairs| - 1;
    if n >= 0 {
      forall k | 0 <= k < n && pairs[..n][k].0 == key ensures !Readable(pairs[..n][k]) {
        assert pairs[..n][k] == pairs[k];
      }
      UnreadableIsAbsent(pairs[..n], key);
    }
  }

  // ------------------------------------------------------------------------ drawers

  /** The query asks for this drawer: by its kind and id, on the tab asked for if the kind has it and
      on the overview otherwise. */
  predicate Asks(query: Query, d: Drawer) {
    && "drawer" in query && query["drawer"] == KindName(d.kind) && "id" in query && query["id"] == d.id
    && (if "tab" in query && query["tab"] in DrawerTabs(d.kind) then query["tab"] == d.tab else d.tab == "overview")
  }

  /** A location shows a drawer exactly when its query asks for it with an id. The query it keeps names
      the tab unless it is the overview, and without a drawer none of its keys. */
  lemma DrawerIsShownExactly(page: Page, raw: Query, d: Drawer)
    ensures var shown := Normalised(page, raw);
            && (shown.drawer == Some(d) <==> Asks(raw, d) && d.id != "")
            && (shown.drawer == Some(d) ==>
                  && "drawer" in shown.query && "id" in shown.query
                  && (if d.tab == "overview" then "tab" !in shown.query
                      else "tab" in shown.query && shown.query["tab"] == d.tab))
            && (shown.drawer == None ==> "drawer" !in shown.query && "id" !in shown.query && "tab" !in shown.query)
  {
    KindIsItsName(d.kind);
  }

  lemma KindIsItsName(kind: DrawerKind)
    ensures KindOf(KindName(kind)) == Some(kind)
    ensures "overview" in DrawerTabs(kind)
  {
    assert DrawerTabs(kind)[0] == "overview";
    KindNamesDiffer();
    KindListed(kind);
    KindOfListed(KINDS, kind);
  }

  lemma KindListed(kind: DrawerKind)
    ensures kind in KINDS
  {
    match kind
    case Asset => assert KINDS[0] == kind;
    case Finding => assert KINDS[1] == kind;
    case Vulnerability => assert KINDS[2] == kind;
    case Issue => assert KINDS[3] == kind;
    case Activity => assert KINDS[4] == kind;
    case Session => assert KINDS[5] == kind;
    case Detection => assert KINDS[6] == kind;
  }

  lemma KindNamesDiffer()
    ensures forall p, q :: KindName(p) == KindName(q) ==> p == q
  {
    forall p, q | KindName(p) == KindName(q) ensures p == q {
      var s := KindName(p);
      match p
      case Asset => assert s[0] == 'a' && s[1] == 's';
      case Activity => assert s[0] == 'a' && s[1] == 'c';
      case Finding => assert s[0] == 'f';
      case Vulnerability => assert s[0] == 'v';
      case Issue => assert s[0] == 'i';
      case Session => assert s[0] == 's';
      case Detection => assert s[0] == 'd';
    }
  }

  lemma {:induction false} KindOfListed(kinds: seq<DrawerKind>, kind: DrawerKind)
    requires kind in kinds && forall p, q :: KindName(p) == KindName(q) ==> p == q
    ensures KindOf(KindName(kind), kinds) == Some(kind)
  {
    if kinds[0] != kind { KindOfListed(kinds[1..], kind); }
  }

  // -------------------------------------------------------------------------- pages

  lemma {:induction false} SlashesAreStripped(path: string, n: nat)
    requires path == "" || path[|path| - 1] != '/'
    ensures StripSlashes(path + seq(n, _ => '/')) == path
  {
    var text := path + seq(n, _ => '/');
    if n > 0 {
      assert text[..|text| - 1] == path + seq(n - 1, _ => '/');
      SlashesAreStripped(path, n - 1);
    } else {
      assert text == path;
    }
  }

  lemma OnlySlashes(n: nat)
    ensures PageFromPath(seq(n, _ => '/')) == Dashboard
  {
    assert "" + seq(n, _ => '/') == seq(n, _ => '/');
    SlashesAreStripped("", n);
    PageOfPath(Dashboard);
  }

  lemma SlashedIsFound(path: string, page: Page, n: nat)
    requires path != "" && path[|path| - 1] != '/' && PageOf(path) == page
    ensures PageFromPath(path + seq(n, _ => '/')) == page
  {
    SlashesAreStripped(path, n);
  }

  /** A page is found by its path, whatever number of slashes follows. */
  lemma PathWithSlashes(page: Page, n: nat)
    ensures PageFromPath(PagePath(page) + seq(n, _ => '/')) == page
  {
    PageOfPath(page);
    PagePathEnds(page);
    if page == Dashboard {
      assert PagePath(page) + seq(n, _ => '/') == seq(n + 1, _ => '/');
      OnlySlashes(n + 1);
    } else {
      SlashedIsFound(PagePath(page), page, n);
    }
  }

  lemma {:induction false} ForeignPath(path: string, pages: seq<Page>)
    requires forall page :: page in pages ==> PagePath(page) != path
    ensures PageOf(path, pages) == Dashboard
  {
    if pages != [] { ForeignPath(path, pages[1..]); }
  }

  /** A path of no page shows the dashboard, and the return of a provider's setup the connections. */
  lemma OtherPaths(pathname: string, pairs: seq<Pair>)
    requires forall page :: PagePath(page) != StripSlashes(pathname)
    ensures LocationFrom(pathname, pairs).page ==
            if exists k :: 0 <= k < |pairs| && (pairs[k].0 == "github_setup" || pairs[k].0 == "entra_setup")
            then Connections else Dashboard
  {
    var stripped := StripSlashes(pathname);
    if stripped == "" { PageOfPath(Dashboard); } else { ForeignPath(stripped, PAGES); }
    forall k | 0 <= k < |pairs| && (pairs[k].0 == "github_setup" || pairs[k].0 == "entra_setup")
      ensures HasConnectionReturn(pairs)
    {
      assert Mentions(pairs, pairs[k].0);
    }
  }

  /** Everything a URL shows: the values that count, the page unless a setup returns, and the drawer. */
  lemma UrlShows(page: Page, pairs: seq<Pair>, d: Drawer)
    ensures var shown := LocationFrom(PagePath(page), pairs);
            && shown.page == (if HasConnectionReturn(pairs) then Connections else page)
            && (shown.drawer == Some(d) <==> Asks(Collected(pairs), d) && d.id != "")
            && forall key :: key !in {"drawer", "id", "tab"} ==>
                 (key in shown.query <==> key in Collected(pairs))
                 && (key in shown.query ==> shown.query[key] == Collected(pairs)[key])
  {
    PagePathRoundTrip(page);
    DrawerIsShownExactly(page, Collected(pairs), d);
    DrawerIsShownExactly(Connections, Collected(pairs), d);
  }
}
