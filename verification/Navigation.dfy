/** Locations of the web client: how a URL is read, how a page and its query are printed, and what
    printing and reading again gives. */
module Navigation {
  import opened Options
  import opened FormCodec
  import opened Sequences

  datatype Page =
    | Dashboard | Connections | Inventory | ShadowAi | Findings | Vulnerabilities
    | Issues | CodeToCloud | Runtime | Detections | Sources | Profile

  datatype DrawerKind = Asset | Finding | Vulnerability | Issue | Activity | Session | Detection

  type Query = map<string, string>

  datatype Drawer = Drawer(kind: DrawerKind, id: string, tab: string)

  datatype Location = Location(page: Page, query: Query, drawer: Option<Drawer>)

  function PagePath(page: Page): string {
    match page
    case Dashboard => "/"
    case Connections => "/connections"
    case Inventory => "/inventory"
    case ShadowAi => "/shadow-ai"
    case Findings => "/posture-findings"
    case Vulnerabilities => "/vulnerabilities"
    case Issues => "/issues"
    case CodeToCloud => "/code-to-cloud"
    case Runtime => "/runtime-activity"
    case Detections => "/detections"
    case Sources => "/sources"
    case Profile => "/profile"
  }

  const PAGES: seq<Page> :=
    [Dashboard, Connections, Inventory, ShadowAi, Findings, Vulnerabilities,
     Issues, CodeToCloud, Runtime, Detections, Sources, Profile]

  function KindName(kind: DrawerKind): string {
    match kind
    case Asset => "asset"
    case Finding => "finding"
    case Vulnerability => "vulnerability"
    case Issue => "issue"
    case Activity => "activity"
    case Session => "session"
    case Detection => "detection"
  }

  const KINDS: seq<DrawerKind> := [Asset, Finding, Vulnerability, Issue, Activity, Session, Detection]

  function DrawerTabs(kind: DrawerKind): (tabs: seq<string>)
    ensures "" !in tabs
  {
    match kind
    case Asset => ["overview", "relationships", "evidence"]
    case Finding => ["overview", "evidence", "history"]
    case Vulnerability => ["overview", "evidence", "sources"]
    case Issue => ["overview", "path", "evidence"]
    case Activity => ["overview", "evidence"]
    case Session => ["overview"]
    case Detection => ["overview", "evidence"]
  }

  function KindOf(name: string, kinds: seq<DrawerKind> := KINDS): (kind: Option<DrawerKind>)
    ensures kind.Some? ==> KindName(kind.value) == name
  {
    if kinds == [] then None
    else if KindName(kinds[0]) == name then Some(kinds[0])
    else KindOf(name, kinds[1..])
  }

  function StripSlashes(path: string): string {
    if path != "" && path[|path| - 1] == '/' then StripSlashes(path[..|path| - 1]) else path
  }

  function PageOf(path: string, pages: seq<Page> := PAGES): Page {
    if pages == [] then Dashboard
    else if PagePath(pages[0]) == path then pages[0]
    else PageOf(path, pages[1..])
  }

  function PageFromPath(pathname: string): Page {
    var stripped := StripSlashes(pathname);
    PageOf(if stripped == "" then "/" else stripped)
  }

  // -------------------------------------------------------------------- queries

  const MAX_QUERY_VALUE := 500

  /** Length in UTF-16 code units, as the client counts it. */
  function Utf16Length(s: string): nat {
    if s == "" then 0 else (if s[0] as int >= 0x10000 then 2 else 1) + Utf16Length(s[1..])
  }

  /** Setting `__proto__` of an object to text has no effect. */
  predicate Admissible(key: string, value: string) {
    value != "" && Utf16Length(value) <= MAX_QUERY_VALUE && key != "__proto__"
  }

  /** The last admissible value of every key. */
  function Collected(pairs: seq<Pair>): Query {
    if pairs == [] then map[]
    else
      var earlier, (key, value) := Collected(pairs[..|pairs| - 1]), pairs[|pairs| - 1];
      if Admissible(key, value) then earlier[key := value] else earlier
  }

  predicate Mentions(pairs: seq<Pair>, key: string) {
    exists k :: 0 <= k < |pairs| && pairs[k].0 == key
  }

  predicate HasConnectionReturn(pairs: seq<Pair>) {
    Mentions(pairs, "github_setup") || Mentions(pairs, "entra_setup")
  }

  /** The drawer a query asks for, and the query with its drawer keys made consistent. */
  function Normalised(page: Page, raw: Query): Location {
    if "drawer" in raw && KindOf(raw["drawer"]).Some? && "id" in raw && raw["id"] != "" then
      var kind := KindOf(raw["drawer"]).value;
      var tab := if "tab" in raw && raw["tab"] in DrawerTabs(kind) then raw["tab"] else "overview";
      Location(page,
               if tab == "overview" then raw - {"tab"} else raw["tab" := tab],
               Some(Drawer(kind, raw["id"], tab)))
    else Location(page, raw - {"drawer", "id", "tab"}, None)
  }

  function LocationFrom(pathname: string, pairs: seq<Pair>): Location {
    Normalised(if HasConnectionReturn(pairs) then Connections else PageFromPath(pathname), Collected(pairs))
  }

  method NavigationFromUrl(pathname: string, pairs: seq<Pair>) returns (location: Location)
    ensures location == LocationFrom(pathname, pairs)
  {
    var page := PageFromPath(pathname);
    if HasConnectionReturn(pairs) { page := Connections; }
    var query: Query := map[];
    for k := 0 to |pairs|
      invariant query == Collected(pairs[..k])
    {
      assert pairs[..k + 1][..k] == pairs[..k];
      var (key, value) := pairs[k];
      if value != "" && Utf16Length(value) <= MAX_QUERY_VALUE && key != "__proto__" { query := query[key := value]; }
    }
    assert pairs[..|pairs|] == pairs;
    var drawer := None;
    var kind := if "drawer" in query then KindOf(query["drawer"]) else None;
    if kind.Some? && "id" in query && query["id"] != "" {
      var tab := if "tab" in query && query["tab"] in DrawerTabs(kind.value) then query["tab"] else "overview";
      drawer := Some(Drawer(kind.value, query["id"], tab));
      if tab == "overview" { query := query - {"tab"}; } else { query := query["tab" := tab]; }
    } else {
      query := query - {"drawer"};
      query := query - {"id"};
      query := query - {"tab"};
      assert query == Collected(pairs) - {"drawer", "id", "tab"};
    }
    location := Location(page, query, drawer);
  }

  // ------------------------------------------------------------------- printing

  type Properties = seq<(string, Option<string>)>

  /** Properties of a record in some order, with absent or empty values left out. */
  function Present(entries: Properties): seq<Pair> {
    if entries == [] then []
    else
      var earlier, (key, value) := Present(entries[..|entries| - 1]), entries[|entries| - 1];
      if value.Some? && value.value != "" then earlier + [(key, value.value)] else earlier
  }

  function UrlText(page: Page, pairs: seq<Pair>): string {
    PagePath(page) + if pairs == [] then "" else "?" + Serialize(Browser, pairs)
  }

  /** URLSearchParams.set: replaces the first pair of that name and drops the others. */
  function Without(pairs: seq<Pair>, key: string): seq<Pair> {
    if pairs == [] then []
    else if pairs[0].0 == key then Without(pairs[1..], key)
    else [pairs[0]] + Without(pairs[1..], key)
  }

  function SetPair(pairs: seq<Pair>, key: string, value: string): seq<Pair> {
    if pairs == [] then [(key, value)]
    else if pairs[0].0 == key then [(key, value)] + Without(pairs[1..], key)
    else [pairs[0]] + SetPair(pairs[1..], key, value)
  }

  lemma {:induction false} SetFresh(pairs: seq<Pair>, key: string, value: string)
    requires !Mentions(pairs, key)
    ensures SetPair(pairs, key, value) == pairs + [(key, value)]
  {
    if pairs != [] {
      assert pairs[0].0 != key;
      forall k | 0 <= k < |pairs[1..]| ensures pairs[1..][k].0 != key { assert pairs[1..][k] == pairs[k + 1]; }
      SetFresh(pairs[1..], key, value);
    }
  }

  lemma {:induction false} PresentMentions(entries: Properties, key: string)
    requires Mentions(Present(entries), key)
    ensures exists k :: 0 <= k < |entries| && entries[k].0 == key
  {
    var n := |entries| - 1;
    if entries != [] && entries[n].0 != key {
      var k :| 0 <= k < |Present(entries)| && Present(entries)[k].0 == key;
      assert Present(entries[..n])[k].0 == key;
      PresentMentions(entries[..n], key);
      var j :| 0 <= j < |entries[..n]| && entries[..n][j].0 == key;
      assert entries[j].0 == key;
    }
  }

  /** The printed URL depends on the record's properties alone: nothing is overwritten on the way. */
  method NavigationUrl(page: Page, entries: Properties) returns (url: string)
    requires UniqueKeys(entries)
    ensures url == UrlText(page, Present(entries))
  {
    var search: seq<Pair> := [];
    for k := 0 to |entries|
      invariant search == Present(entries[..k])
    {
      assert entries[..k + 1][..k] == entries[..k];
      var (key, value) := entries[k];
      if value.Some? && value.value != "" {
        if Mentions(Present(entries[..k]), key) {
          PresentMentions(entries[..k], key);
          assert false;
        }
        SetFresh(search, key, value.value);
        search := SetPair(search, key, value.value);
      }
    }
    assert entries[..|entries|] == entries;
    var suffix := Serialize(Browser, search);
    SerializedIsForm(Browser, search);
    url := PagePath(page) + (if suffix != "" then "?" + suffix else "");
  }

  // ------------------------------------------------------------------ round trip

  /** `entries` lists the properties of `query`, each once, in some order. */
  predicate Enumerates(entries: Properties, query: Query) {
    && UniqueKeys(entries)
    && (forall k :: 0 <= k < |entries| ==> entries[k].0 in query && entries[k].1 == Some(query[entries[k].0]))
    && (forall key :: key in query ==> Names(entries, key))
  }

  predicate Names(entries: Properties, key: string) {
    exists k :: 0 <= k < |entries| && entries[k].0 == key
  }

  /** The query carries a setup return that is printed. */
  predicate Returns(query: Query) {
    ("github_setup" in query && query["github_setup"] != "") || ("entra_setup" in query && query["entra_setup"] != "")
  }

  /** What is left of a query that is printed and read. */
  function Surviving(query: Query): Query {
    map key | key in query && Admissible(key, query[key]) :: query[key]
  }

  /** What the client shows after committing a page and a query: printed, then read back. */
  function Committed(page: Page, query: Query): Location {
    Normalised(if Returns(query) then Connections else page, Surviving(query))
  }

  /** A URL as the printer writes it, read back: everything before the first question mark is the
      path, the rest the query. */
  function ReadUrl(url: string): Location {
    var k := Find(url, '?');
    if k == |url| then LocationFrom(url, []) else LocationFrom(url[..k], Parse(url[k + 1..]))
  }

  predicate PathChar(c: char) { c == '/' || c == '-' || 'a' <= c <= 'z' }

  lemma PagePathIsPlain(page: Page)
    ensures forall k :: 0 <= k < |PagePath(page)| ==> PathChar(PagePath(page)[k])
  {
    match page case _ =>
  }

  lemma PagePathEnds(page: Page)
    ensures PagePath(page) != "" && (page != Dashboard ==> PagePath(page)[|PagePath(page)| - 1] != '/')
  {
    match page case _ =>
  }

  lemma PagePathRoundTrip(page: Page)
    ensures PageFromPath(PagePath(page)) == page
    ensures '?' !in PagePath(page) && '#' !in PagePath(page)
  {
    PagePathIsPlain(page);
    PagePathEnds(page);
    if page == Dashboard { assert StripSlashes("/") == StripSlashes(""); }
    PageOfPath(page);
  }

  lemma PageOfPath(page: Page)
    ensures PageOf(PagePath(page)) == page
  {
    var k :| 0 <= k < |PAGES| && PAGES[k] == page by { match page { case _ => PagesListed(page); } }
    PageOfListed(PAGES, k);
  }

  lemma PagesListed(page: Page)
    ensures exists k :: 0 <= k < |PAGES| && PAGES[k] == page
  {
    match page
    case Dashboard => assert PAGES[0] == page;
    case Connections => assert PAGES[1] == page;
    case Inventory => assert PAGES[2] == page;
    case ShadowAi => assert PAGES[3] == page;
    case Findings => assert PAGES[4] == page;
    case Vulnerabilities => assert PAGES[5] == page;
    case Issues => assert PAGES[6] == page;
    case CodeToCloud => assert PAGES[7] == page;
    case Runtime => assert PAGES[8] == page;
    case Detections => assert PAGES[9] == page;
    case Sources => assert PAGES[10] == page;
    case Profile => assert PAGES[11] == page;
  }

  lemma PathsDiffer(p: Page, q: Page)
    requires PagePath(p) == PagePath(q)
    ensures p == q
  {
    var s := PagePath(p);
    match p
    case Dashboard => assert |s| == 1;
    case Connections => assert s[1] == 'c' && s[3] == 'n';
    case CodeToCloud => assert s[1] == 'c' && s[3] == 'd';
    case Inventory => assert s[1] == 'i' && s[2] == 'n';
    case Issues => assert s[1] == 'i' && s[2] == 's';
    case ShadowAi => assert s[1] == 's' && s[2] == 'h';
    case Sources => assert s[1] == 's' && s[2] == 'o';
    case Findings => assert s[1] == 'p' && s[2] == 'o';
    case Profile => assert s[1] == 'p' && s[2] == 'r';
    case Vulnerabilities => assert s[1] == 'v';
    case Runtime => assert s[1] == 'r';
    case Detections => assert s[1] == 'd';
  }

  lemma {:induction false} PageOfListed(pages: seq<Page>, k: nat)
    requires k < |pages|
    ensures PageOf(PagePath(pages[k]), pages) == pages[k]
  {
    if PagePath(pages[0]) == PagePath(pages[k]) {
      PathsDiffer(pages[0], pages[k]);
    } else {
      PageOfListed(pages[1..], k - 1);
    }
  }

  function Filled(query: Query): Query { map key | key in query && query[key] != "" :: query[key] }

  /** Printing a record in some order and reading the pairs gives its non-empty properties, and those
      that are not too long are kept. */
  lemma {:induction false} PresentEnumeration(entries: Properties, query: Query)
    requires Enumerates(entries, query)
    ensures Collected(Present(entries)) == Surviving(query)
    ensures forall key :: Mentions(Present(entries), key) <==> key in Filled(query)
  {
    if entries == [] {
      assert forall key :: !Names(entries, key);
    } else {
      var n := |entries| - 1;
      var (key, value) := entries[n];
      var front, smaller := entries[..n], query - {key};
      forall other | other in smaller ensures Names(front, other) {
        var k :| 0 <= k < |entries| && entries[k].0 == other;
        assert front[k].0 == other;
      }
      PresentEnumeration(front, smaller);
      PresentOneMore(entries, query);
    }
  }

  lemma MentionsOneMore(earlier: seq<Pair>, key: string, value: string)
    ensures forall other :: Mentions(earlier + [(key, value)], other) <==> Mentions(earlier, other) || other == key
  {
    var pairs := earlier + [(key, value)];
    forall other ensures Mentions(pairs, other) <==> Mentions(earlier, other) || other == key {
      if Mentions(earlier, other) {
        var k :| 0 <= k < |earlier| && earlier[k].0 == other;
        assert pairs[k].0 == other;
      }
      assert pairs[|earlier|].0 == key;
    }
  }

  lemma SurvivingOneMore(query: Query, key: string)
    requires key in query
    ensures Surviving(query) ==
            if Admissible(key, query[key]) then Surviving(query - {key})[key := query[key]]
            else Surviving(query - {key})
  {
  }

  lemma CollectedOneMore(earlier: seq<Pair>, key: string, value: string)
    ensures Collected(earlier + [(key, value)]) ==
            if Admissible(key, value) then Collected(earlier)[key := value] else Collected(earlier)
  {
    var pairs := earlier + [(key, value)];
    assert pairs[..|pairs| - 1] == earlier;
  }

  lemma FilledOneMore(query: Query, key: string, other: string)
    requires key in query
    ensures other in Filled(query) <==> other in Filled(query - {key}) || (other == key && query[key] != "")
  {
  }

  lemma PresentOneMore(entries: Properties, query: Query)
    requires entries != [] && Enumerates(entries, query)
    requires var front, smaller := entries[..|entries| - 1], query - {entries[|entries| - 1].0};
             && Collected(Present(front)) == Surviving(smaller)
             && forall key :: Mentions(Present(front), key) <==> key in Filled(smaller)
    ensures Collected(Present(entries)) == Surviving(query)
    ensures forall key :: Mentions(Present(entries), key) <==> key in Filled(query)
  {
    var n := |entries| - 1;
    var earlier := Present(entries[..n]);
    var key, value := entries[n].0, query[entries[n].0];
    SurvivingOneMore(query, key);
    CollectedOneMore(earlier, key, value);
    MentionsOneMore(earlier, key, value);
    assert Present(entries) == if value != "" then earlier + [(key, value)] else earlier;
    forall other ensures Mentions(Present(entries), other) <==> other in Filled(query) {
      FilledOneMore(query, key, other);
    }
  }

  lemma PrintedSplit(page: Page, pairs: seq<Pair>)
    ensures ReadUrl(UrlText(page, pairs)) == LocationFrom(PagePath(page), pairs)
  {
    PagePathRoundTrip(page);
    PairsRoundTrip(Browser, pairs);
    var path, url := PagePath(page), UrlText(page, pairs);
    if pairs == [] {
      assert url == path;
      FindAbsent(path, '?');
    } else {
      var text := Serialize(Browser, pairs);
      assert url == path + ['?'] + text;
      FindAfter(path, '?', text);
      assert url[..|path|] == path && url[|path| + 1..] == text;
    }
  }

  /** Committing shows the same location whatever order the record's properties print in; empty ones
      are not printed. */
  lemma PrintThenRead(page: Page, query: Query, entries: Properties)
    requires Enumerates(entries, query)
    ensures ReadUrl(UrlText(page, Present(entries))) == Committed(page, query)
  {
    PrintedSplit(page, Present(entries));
    PagePathRoundTrip(page);
    PresentEnumeration(entries, query);
  }

  lemma {:induction false} CollectedKeys(pairs: seq<Pair>)
    ensures forall key :: key in Collected(pairs) ==> Mentions(pairs, key) && Admissible(key, Collected(pairs)[key])
  {
    if pairs != [] {
      var n := |pairs| - 1;
      CollectedKeys(pairs[..n]);
      forall key | key in Collected(pairs) ensures Mentions(pairs, key) {
        if Mentions(pairs[..n], key) {
          var k :| 0 <= k < n && pairs[..n][k].0 == key;
          assert pairs[k].0 == key;
        } else {
          assert pairs[n].0 == key;
        }
      }
    }
  }

  lemma NormalisedTwice(page: Page, raw: Query)
    ensures var location := Normalised(page, raw); Normalised(page, location.query) == location
    ensures forall key :: key in Normalised(page, raw).query ==>
              key in raw && raw[key] == Normalised(page, raw).query[key]
  {
    var location := Normalised(page, raw);
    var query := location.query;
    if location.drawer == None {
      assert query == raw - {"drawer", "id", "tab"};
      assert query - {"drawer", "id", "tab"} == query;
    } else {
      assert raw["drawer"] == query["drawer"] && raw["id"] == query["id"];
      if location.drawer.value.tab == "overview" {
        assert query == raw - {"tab"} && query - {"tab"} == query;
      } else {
        assert query == raw && query["tab" := location.drawer.value.tab] == query;
      }
    }
  }

  lemma CommittedIsCanonical(page: Page, raw: Query)
    requires forall key :: key in raw ==> Admissible(key, raw[key])
    requires "github_setup" in raw || "entra_setup" in raw ==> page == Connections
    ensures var location := Normalised(page, raw); Committed(location.page, location.query) == location
  {
    NormalisedTwice(page, raw);
    var query := Normalised(page, raw).query;
    assert Surviving(query) == query;
  }

  /** Canonicalisation: for every URL, reading it, printing the page and query, and reading that
      gives the same page, query and drawer. Repeated keys, empty and over-long values, malformed
      escapes, unknown drawers and tabs and setup returns are all included. */
  lemma CanonicalRoundTrip(pathname: string, search: string, entries: Properties)
    requires Enumerates(entries, LocationFrom(pathname, Parse(search)).query)
    ensures var location := LocationFrom(pathname, Parse(search));
            ReadUrl(UrlText(location.page, Present(entries))) == location
  {
    var input := Parse(search);
    var location := LocationFrom(pathname, input);
    CollectedKeys(input);
    CommittedIsCanonical(location.page, Collected(input));
    PrintThenRead(location.page, location.query, entries);
  }

  /** The printed URL needs no further escaping: besides the one question mark it is made of the
      page's path and form characters, so a URL parser keeps path and query as they are. */
  lemma PrintedUrlIsPlain(page: Page, pairs: seq<Pair>)
    ensures var url := UrlText(page, pairs);
            exists suffix :: (url == PagePath(page) || url == PagePath(page) + "?" + suffix)
              && AllForm(suffix)
  {
    SerializedIsForm(Browser, pairs);
    var suffix := Serialize(Browser, pairs);
    assert UrlText(page, pairs) == PagePath(page) || UrlText(page, pairs) == PagePath(page) + "?" + suffix;
  }
}
