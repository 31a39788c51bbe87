/** Choosing repositories: what changed since a selection was saved, what of it is kept, what may be
    submitted, and the pages through which it is edited. */
module Selection {
  import opened Options
  import opened Sequences

  /** A listed repository. Its identity is everything but the archived flag. */
  datatype Repo = Repo(id: int, nodeId: Option<string>, fullName: string, ownerId: Option<int>,
                       ownerLogin: Option<string>, archived: bool)

  predicate SameIdentity(left: Repo, right: Repo) {
    && left.id == right.id && left.nodeId == right.nodeId && left.fullName == right.fullName
    && left.ownerId == right.ownerId && left.ownerLogin == right.ownerLogin
  }

  // -------------------------------------------------------- lists, as the source uses them

  function Filter<T>(s: seq<T>, keep: T -> bool): seq<T> {
    if s == [] then []
    else if keep(s[0]) then [s[0]] + Filter(s[1..], keep)
    else Filter(s[1..], keep)
  }

  function Ids(repos: seq<Repo>): (ids: seq<int>)
    ensures |ids| == |repos| && forall k :: 0 <= k < |ids| ==> ids[k] == repos[k].id
  {
    seq(|repos|, k requires 0 <= k < |repos| => repos[k].id)
  }

  /** A map built from a list: the last entry of a key wins. */
  function Lookup(repos: seq<Repo>, id: int): (r: Option<Repo>)
    ensures r.Some? <==> id in Ids(repos)
    ensures r.Some? ==> r.value in repos && r.value.id == id
  {
    if repos == [] then None
    else
      var last := repos[|repos| - 1];
      assert forall k :: 0 <= k < |repos| - 1 ==> Ids(repos)[k] == Ids(repos[..|repos| - 1])[k];
      assert Ids(repos) == Ids(repos[..|repos| - 1]) + [last.id];
      if last.id == id then Some(last) else Lookup(repos[..|repos| - 1], id)
  }

  /** First occurrences, in order. */
  function Distinct(s: seq<int>): seq<int> {
    if s == [] then []
    else
      var front, last := Distinct(s[..|s| - 1]), s[|s| - 1];
      if last in front then front else front + [last]
  }

  function Insert(x: int, s: seq<int>): seq<int> {
    if s == [] || x <= s[0] then [x] + s else [s[0]] + Insert(x, s[1..])
  }

  function Sort(s: seq<int>): seq<int> {
    if s == [] then [] else Insert(s[0], Sort(s[1..]))
  }

  // ----------------------------------------------------------------- facts about lists

  predicate Increasing(s: seq<int>) { forall i, j :: 0 <= i < j < |s| ==> s[i] < s[j] }

  lemma {:induction false} FilterSpec<T>(s: seq<T>, keep: T -> bool)
    ensures forall x :: x in Filter(s, keep) <==> x in s && keep(x)
  {
    if s != [] { FilterSpec(s[1..], keep); }
  }

  lemma {:induction false} FilterUnique<T>(s: seq<T>, keep: T -> bool)
    requires Unique(s)
    ensures Unique(Filter(s, keep))
  {
    if s != [] {
      FilterSpec(s[1..], keep);
      FilterUnique(s[1..], keep);
      assert forall k :: 0 <= k < |s[1..]| ==> s[1..][k] == s[k + 1];
      assert s[0] !in s[1..];
    }
  }

  lemma {:induction false} DistinctSpec(s: seq<int>)
    ensures Unique(Distinct(s)) && forall x :: x in Distinct(s) <==> x in s
  {
    if s != [] {
      DistinctSpec(s[..|s| - 1]);
      assert s == s[..|s| - 1] + [s[|s| - 1]];
    }
  }

  lemma {:induction false} InsertNew(x: int, s: seq<int>)
    requires Increasing(s) && x !in s
    ensures Increasing(Insert(x, s)) && forall y :: y in Insert(x, s) <==> y == x || y in s
  {
    if s != [] && x > s[0] {
      assert s == [s[0]] + s[1..];
      InsertNew(x, s[1..]);
      forall k | 0 <= k < |Insert(x, s[1..])| ensures s[0] < Insert(x, s[1..])[k] {
        assert Insert(x, s[1..])[k] in Insert(x, s[1..]);
      }
    }
  }

  lemma {:induction false} SortUnique(s: seq<int>)
    requires Unique(s)
    ensures Increasing(Sort(s)) && forall x :: x in Sort(s) <==> x in s
  {
    if s != [] {
      assert s == [s[0]] + s[1..];
      assert s[0] !in s[1..];
      SortUnique(s[1..]);
      InsertNew(s[0], Sort(s[1..]));
    }
  }

  lemma TailMembers(a: seq<int>, x: int)
    requires a != [] && Increasing(a)
    ensures x in a[1..] <==> x in a && x != a[0]
  {
    assert a == [a[0]] + a[1..];
  }

  /** A strictly increasing list is determined by its members. */
  lemma {:induction false} IncreasingUnique(a: seq<int>, b: seq<int>)
    requires Increasing(a) && Increasing(b) && forall x :: x in a <==> x in b
    ensures a == b
    decreases |a|
  {
    assert a != [] ==> a[0] in a;
    assert b != [] ==> b[0] in b;
    if a != [] {
      assert a[0] == b[0];
      forall x ensures x in a[1..] <==> x in b[1..] {
        TailMembers(a, x);
        TailMembers(b, x);
      }
      IncreasingUnique(a[1..], b[1..]);
      assert a == [a[0]] + a[1..] && b == [b[0]] + b[1..];
    }
  }

  // ---------------------------------------------------------- differences and retention

  datatype Changes = Changes(added: seq<Repo>, removed: seq<Repo>, changed: seq<Repo>)

  predicate Moved(original: Option<Repo>, repo: Repo) {
    original.Some? && !SameIdentity(original.value, repo)
  }

  function ChangesOf(saved: seq<Repo>, available: seq<Repo>): Changes {
    Changes(Filter(available, (repo: Repo) => Lookup(saved, repo.id) == None),
            Filter(saved, (repo: Repo) => Lookup(available, repo.id) == None),
            Filter(available, (repo: Repo) => Moved(Lookup(saved, repo.id), repo)))
  }

  /** The id stands for the same repository in both lists. */
  predicate Kept(before: seq<Repo>, after: seq<Repo>, id: int) {
    var left, right := Lookup(before, id), Lookup(after, id);
    left.Some? && right.Some? && SameIdentity(left.value, right.value)
  }

  function Retain(selected: seq<int>, before: seq<Repo>, after: seq<Repo>): seq<int> {
    Sort(Filter(Distinct(selected), id => Kept(before, after, id)))
  }

  /** Retention, stated outright: the selected ids that still stand for the same repository, once
      each, in increasing order. Together these determine the result. */
  lemma RetainSpec(selected: seq<int>, before: seq<Repo>, after: seq<Repo>)
    ensures Increasing(Retain(selected, before, after))
    ensures forall id :: id in Retain(selected, before, after) <==> id in selected && Kept(before, after, id)
  {
    DistinctSpec(selected);
    FilterSpec(Distinct(selected), id => Kept(before, after, id));
    FilterUnique(Distinct(selected), id => Kept(before, after, id));
    SortUnique(Filter(Distinct(selected), id => Kept(before, after, id)));
  }

  function IdSet(repos: seq<Repo>): set<int> { set k | 0 <= k < |repos| :: repos[k].id }

  lemma LookupUnique(repos: seq<Repo>, repo: Repo)
    requires Unique(Ids(repos)) && repo in repos
    ensures Lookup(repos, repo.id) == Some(repo)
  {
    var k :| 0 <= k < |repos| && repos[k] == repo;
    assert Ids(repos)[k] == repo.id;
    var found := Lookup(repos, repo.id).value;
    var j :| 0 <= j < |repos| && repos[j] == found;
    assert Ids(repos)[j] == Ids(repos)[k];
  }

  lemma IdSetSpec(repos: seq<Repo>, id: int)
    ensures id in IdSet(repos) <==> Lookup(repos, id).Some?
    ensures id in IdSet(repos) <==> exists repo :: repo in repos && repo.id == id
  {
    if id in IdSet(repos) {
      var k :| 0 <= k < |repos| && repos[k].id == id;
      assert Ids(repos)[k] == id && repos[k] in repos;
    }
  }

  /** What is reported removed is listed no more; what is reported changed is listed, if only once of
      several times, under another identity. */
  lemma ReportedExactly(saved: seq<Repo>, available: seq<Repo>, id: int)
    ensures var changes := ChangesOf(saved, available);
            && (id in IdSet(changes.removed) <==> Lookup(saved, id).Some? && Lookup(available, id) == None)
            && (id in IdSet(changes.changed) <==>
                  exists repo :: repo in available && repo.id == id && Moved(Lookup(saved, id), repo))
  {
    var changes := ChangesOf(saved, available);
    IdSetSpec(changes.removed, id);
    IdSetSpec(changes.changed, id);
    FilterSpec(saved, (repo: Repo) => Lookup(available, repo.id) == None);
    FilterSpec(available, (repo: Repo) => Moved(Lookup(saved, repo.id), repo));
    if Lookup(saved, id).Some? && Lookup(available, id) == None {
      assert Lookup(saved, id).value in changes.removed;
    }
  }

  /** No id that stands for the saved repository is listed another time for a different one. */
  predicate ListedConsistently(saved: seq<Repo>, available: seq<Repo>) {
    forall k :: 0 <= k < |available| && Kept(saved, available, available[k].id) ==>
      !Moved(Lookup(saved, available[k].id), available[k])
  }

  /** Keeping the whole saved selection gives exactly the saved ids reported neither removed nor
      changed. */
  ghost predicate Agree(saved: seq<Repo>, available: seq<Repo>) {
    var changes := ChangesOf(saved, available);
    forall id :: id in Retain(Ids(saved), saved, available) <==>
                 id in IdSet(saved) - IdSet(changes.removed) - IdSet(changes.changed)
  }

  lemma AgreeOn(saved: seq<Repo>, available: seq<Repo>, id: int)
    ensures id in Retain(Ids(saved), saved, available) <==> Kept(saved, available, id)
    ensures var changes := ChangesOf(saved, available);
            id in IdSet(saved) - IdSet(changes.removed) - IdSet(changes.changed) <==>
              && Kept(saved, available, id)
              && forall repo :: repo in available && repo.id == id ==> !Moved(Lookup(saved, id), repo)
  {
    RetainSpec(Ids(saved), saved, available);
    IdSetSpec(saved, id);
    ReportedExactly(saved, available, id);
    var changes := ChangesOf(saved, available);
    if id in IdSet(saved) - IdSet(changes.removed) - IdSet(changes.changed) {
      assert Lookup(available, id).value in available;
    }
  }

  /** Difference and retention agree, for all lists, if and only if the new list is consistent about
      the ids it keeps. */
  lemma DifferenceAndRetentionAgree(saved: seq<Repo>, available: seq<Repo>)
    ensures Increasing(Retain(Ids(saved), saved, available))
    ensures Agree(saved, available) <==> ListedConsistently(saved, available)
  {
    RetainSpec(Ids(saved), saved, available);
    if ListedConsistently(saved, available) {
      var changes := ChangesOf(saved, available);
      forall id
        ensures id in Retain(Ids(saved), saved, available) <==>
                id in IdSet(saved) - IdSet(changes.removed) - IdSet(changes.changed)
      {
        AgreeOn(saved, available, id);
      }
    } else {
      var k :| 0 <= k < |available| && Kept(saved, available, available[k].id)
               && Moved(Lookup(saved, available[k].id), available[k]);
      AgreeOn(saved, available, available[k].id);
      assert available[k] in available;
    }
  }

  /** A list that repeats no id, or repeats it for the same repository only, is consistent. */
  lemma RepeatsOfOneIdentityAgree(saved: seq<Repo>, available: seq<Repo>)
    requires forall j, k :: 0 <= j < k < |available| && available[j].id == available[k].id ==>
               SameIdentity(available[j], available[k])
    ensures ListedConsistently(saved, available)
  {
    forall k | 0 <= k < |available| && Kept(saved, available, available[k].id)
      ensures !Moved(Lookup(saved, available[k].id), available[k])
    {
      var last := Lookup(available, available[k].id).value;
      var j :| 0 <= j < |available| && available[j] == last;
    }
  }

  /** Retention is idempotent, against the same two lists and when the new list is listed again. */
  lemma RetentionIsIdempotent(selected: seq<int>, before: seq<Repo>, after: seq<Repo>)
    ensures var kept := Retain(selected, before, after);
            Retain(kept, before, after) == kept && Retain(kept, after, after) == kept
  {
    var kept := Retain(selected, before, after);
    RetainSpec(selected, before, after);
    RetainSpec(kept, before, after);
    RetainSpec(kept, after, after);
    IncreasingUnique(Retain(kept, before, after), kept);
    IncreasingUnique(Retain(kept, after, after), kept);
  }

  // ------------------------------------------------------------------- submission

  const MAX_SAFE_INTEGER := 9_007_199_254_740_991

  predicate Selectable(selected: seq<int>, available: seq<int>) {
    && 1 <= |selected| <= 500
    && Unique(selected)
    && forall id :: id in selected ==> 0 < id <= MAX_SAFE_INTEGER && id in available
  }

  function SelectedIds(selected: seq<int>, available: seq<int>): Option<seq<int>> {
    if |selected| < 1 || |selected| > 500 || |Distinct(selected)| != |selected|
       || exists id :: id in selected && !(0 < id <= MAX_SAFE_INTEGER && id in available)
    then None
    else Some(Sort(selected))
  }

  lemma {:induction false} DistinctLength(s: seq<int>)
    ensures |Distinct(s)| <= |s|
    ensures |Distinct(s)| == |s| <==> Unique(s)
  {
    if s != [] {
      var front := s[..|s| - 1];
      DistinctLength(front);
      DistinctSpec(front);
      assert s == front + [s[|s| - 1]];
      assert Unique(s) <==> Unique(front) && s[|s| - 1] !in front;
    }
  }

  /** A submission is accepted exactly when it is a non-empty duplicate-free choice of at most 500
      available ids, and what is sent is that choice in increasing order. */
  lemma SubmissionIsExact(selected: seq<int>, available: seq<int>)
    ensures var sent := SelectedIds(selected, available);
            && (sent.Some? <==> Selectable(selected, available))
            && (sent.Some? ==> Increasing(sent.value) && forall id :: id in sent.value <==> id in selected)
  {
    DistinctLength(selected);
    if SelectedIds(selected, available).Some? { SortUnique(selected); }
  }

  // ------------------------------------------------------------------------ pages

  const PAGE_SIZE := 50

  function PageCount(n: nat): (pages: nat)
    ensures pages >= 1
  {
    if n == 0 then 1 else (n + PAGE_SIZE - 1) / PAGE_SIZE
  }

  /** The page shown: the remembered one, or the last when the list has become shorter. */
  function CurrentPage(n: nat, page: nat): (p: nat)
    ensures p < PageCount(n)
  {
    if page < PageCount(n) then page else PageCount(n) - 1
  }

  function Min(a: nat, b: nat): nat { if a < b then a else b }

  function PageOf<T>(items: seq<T>, page: nat): seq<T> {
    items[Min(page * PAGE_SIZE, |items|)..Min((page + 1) * PAGE_SIZE, |items|)]
  }

  function PagesFrom<T>(items: seq<T>, page: nat): seq<T>
    decreases PageCount(|items|) - page
  {
    if page >= PageCount(|items|) then [] else PageOf(items, page) + PagesFrom(items, page + 1)
  }

  lemma {:induction false} PagesFromCover<T>(items: seq<T>, page: nat)
    ensures PagesFrom(items, page) == items[Min(page * PAGE_SIZE, |items|)..]
    decreases PageCount(|items|) - page
  {
    if page < PageCount(|items|) {
      PagesFromCover(items, page + 1);
    }
  }

  /** Leafing through the pages in order shows the whole list, each entry once and in order; only
      an empty list has an empty page. */
  lemma PagesCoverTheList<T>(items: seq<T>)
    ensures PagesFrom(items, 0) == items
    ensures forall page: nat :: page < PageCount(|items|) ==> |PageOf(items, page)| <= PAGE_SIZE
    ensures forall page: nat :: page < PageCount(|items|) && items != [] ==> PageOf(items, page) != []
  {
    PagesFromCover(items, 0);
  }

  // -------------------------------------------------------------- a review of one account

  /** What the panel remembers besides what it displays. */
  datatype Remembered = Remembered(account: string, repositories: seq<Repo>, ids: seq<int>)

  /** `origin` records the identity each id had when it was explicitly checked or saved. */
  datatype Review = Review(
    account: string,
    repositories: seq<Repo>,
    ids: seq<int>,
    remembered: Option<Remembered>,
    query: string,
    page: nat,
    origin: map<int, Repo>)

  datatype Event =
    | Choose(account: string)                            // another account is selected
    | Loaded(saved: seq<Repo>, items: seq<Repo>)         // the list of the selected account arrives
    | Unavailable                                        // it does not, or the account is not ready
    | Search(query: string)
    | Turn(forward: bool)
    | Toggle(position: nat)                              // a checkbox of the visible page

  function Searched(shows: (Repo, string) -> bool, repositories: seq<Repo>, query: string): seq<Repo> {
    Filter(repositories, (repo: Repo) => shows(repo, query))
  }

  function Matching(shows: (Repo, string) -> bool, r: Review): seq<Repo> {
    Searched(shows, r.repositories, r.query)
  }

  function Visible(shows: (Repo, string) -> bool, r: Review): seq<Repo> {
    PageOf(Matching(shows, r), CurrentPage(|Matching(shows, r)|, r.page))
  }

  predicate Possible(shows: (Repo, string) -> bool, r: Review, e: Event) {
    match e
    case Turn(forward) =>
      var n := |Matching(shows, r)|;
      if forward then CurrentPage(n, r.page) + 1 < PageCount(n) else CurrentPage(n, r.page) > 0
    case Toggle(position) => position < |Visible(shows, r)|
    case _ => true
  }

  function Originals(origin: map<int, Repo>, saved: seq<Repo>): map<int, Repo> {
    origin + map id | id in IdSet(saved) :: (IdSetSpec(saved, id); Lookup(saved, id).value)
  }

  function After(shows: (Repo, string) -> bool, r: Review, e: Event): Review
    requires Possible(shows, r, e)
  {
    match e
    case Choose(account) => r.(account := account)
    case Loaded(saved, items) =>
      var previous := if r.remembered.Some? && r.remembered.value.account == r.account then r.remembered else None;
      var ids := if previous.Some? then Retain(previous.value.ids, previous.value.repositories, items)
                 else Retain(Ids(saved), saved, items);
      r.(repositories := items, ids := ids, remembered := Some(Remembered(r.account, items, ids)),
         origin := if previous.Some? then r.origin else Originals(r.origin, saved))
    case Unavailable => r.(repositories := [], ids := [])
    case Search(query) => r.(query := query, page := 0)
    case Turn(forward) =>
      var current := CurrentPage(|Matching(shows, r)|, r.page);
      r.(page := if forward then current + 1 else current - 1)
    case Toggle(position) =>
      var repo := Visible(shows, r)[position];
      var ids := if repo.id in r.ids then Filter(r.ids, id => id != repo.id) else r.ids + [repo.id];
      r.(ids := ids, remembered := Some(Remembered(r.account, r.repositories, ids)),
         origin := if repo.id in r.ids then r.origin else r.origin[repo.id := repo])
  }

  /** Every selected id stands, in the current list, for the repository it stood for when it was
      checked or saved. */
  predicate Backed(origin: map<int, Repo>, repositories: seq<Repo>, ids: seq<int>) {
    forall id :: id in ids ==>
      && id in origin
      && Lookup(repositories, id).Some?
      && SameIdentity(Lookup(repositories, id).value, origin[id])
  }

  predicate Provenance(r: Review) {
    && Backed(r.origin, r.repositories, r.ids)
    && (r.remembered.Some? ==> Backed(r.origin, r.remembered.value.repositories, r.remembered.value.ids))
  }

  /** What is selected is listed, once each, and is what is remembered unless nothing is shown. */
  predicate Coherent(r: Review) {
    && Unique(r.ids) && (forall id :: id in r.ids ==> id in Ids(r.repositories))
    && (|| (r.repositories == [] && r.ids == [])
        || (r.remembered.Some? && r.remembered.value.repositories == r.repositories && r.remembered.value.ids == r.ids))
  }

  /** A checkbox that adds an entry adds the repository its id stands for in the list: the last one
      listed under that id. */
  predicate Unambiguous(shows: (Repo, string) -> bool, r: Review, e: Event)
    requires Possible(shows, r, e)
  {
    e.Toggle? && Visible(shows, r)[e.position].id !in r.ids ==>
      var repo := Visible(shows, r)[e.position];
      Lookup(r.repositories, repo.id).Some? && SameIdentity(Lookup(r.repositories, repo.id).value, repo)
  }

  lemma VisibleAreListed(shows: (Repo, string) -> bool, r: Review, position: nat)
    requires position < |Visible(shows, r)|
    ensures Visible(shows, r)[position] in r.repositories
  {
    FilterSpec(r.repositories, (repo: Repo) => shows(repo, r.query));
    assert Visible(shows, r)[position] in Matching(shows, r);
  }

  lemma LoadedKeepsProvenance(shows: (Repo, string) -> bool, r: Review, e: Event)
    requires Provenance(r) && Possible(shows, r, e) && e.Loaded?
    ensures Provenance(After(shows, r, e))
  {
    var r' := After(shows, r, e);
    var previous := r.remembered.Some? && r.remembered.value.account == r.account;
    var selected := if previous then r.remembered.value.ids else Ids(e.saved);
    var before := if previous then r.remembered.value.repositories else e.saved;
    RetainSpec(selected, before, e.items);
    forall id | id in r'.ids
      ensures id in r'.origin && Lookup(e.items, id).Some? && SameIdentity(Lookup(e.items, id).value, r'.origin[id])
    {
      assert Kept(before, e.items, id);
      IdSetSpec(e.saved, id);
    }
  }

  lemma ToggleKeepsProvenance(shows: (Repo, string) -> bool, r: Review, e: Event)
    requires Provenance(r) && Coherent(r) && Possible(shows, r, e) && e.Toggle?
    ensures Provenance(After(shows, r, e)) <==> Unambiguous(shows, r, e)
  {
    var repo := Visible(shows, r)[e.position];
    FilterSpec(r.ids, id => id != repo.id);
    var r' := After(shows, r, e);
    if repo.id !in r.ids { assert repo.id in r'.ids by { assert r'.ids[|r.ids|] == repo.id; } }
  }

  lemma EventKeepsProvenance(shows: (Repo, string) -> bool, r: Review, e: Event)
    requires Provenance(r) && Coherent(r) && Possible(shows, r, e)
    ensures Provenance(After(shows, r, e)) <==> Unambiguous(shows, r, e)
  {
    match e
    case Loaded(_, _) => LoadedKeepsProvenance(shows, r, e);
    case Toggle(_) => ToggleKeepsProvenance(shows, r, e);
    case _ =>
  }

  lemma EventKeepsCoherent(shows: (Repo, string) -> bool, r: Review, e: Event)
    requires Coherent(r) && Possible(shows, r, e)
    ensures Coherent(After(shows, r, e))
  {
    match e
    case Loaded(saved, items) =>
      var previous := r.remembered.Some? && r.remembered.value.account == r.account;
      var selected := if previous then r.remembered.value.ids else Ids(saved);
      var before := if previous then r.remembered.value.repositories else saved;
      RetainSpec(selected, before, items);
      forall id | id in Retain(selected, before, items) ensures id in Ids(items) {
        assert Kept(before, items, id);
      }
    case Toggle(position) =>
      var repo := Visible(shows, r)[position];
      VisibleAreListed(shows, r, position);
      var k :| 0 <= k < |r.repositories| && r.repositories[k] == repo;
      assert Ids(r.repositories)[k] == repo.id;
      FilterSpec(r.ids, id => id != repo.id);
      FilterUnique(r.ids, id => id != repo.id);
    case _ =>
  }

  const START := Review("", [], [], None, "", 0, map[])

  /** The review after a list of events, or None when one of them could not happen. */
  function Reviewed(shows: (Repo, string) -> bool, r: Review, events: seq<Event>): Option<Review>
    decreases |events|
  {
    if events == [] then Some(r)
    else if Possible(shows, r, events[0]) then Reviewed(shows, After(shows, r, events[0]), events[1..])
    else None
  }

  /** At every moment of the run each selected id stands for what it was checked or saved for. */
  predicate AlwaysProvenance(shows: (Repo, string) -> bool, r: Review, events: seq<Event>)
    decreases |events|
  {
    Provenance(r)
    && (events == [] || !Possible(shows, r, events[0])
        || AlwaysProvenance(shows, After(shows, r, events[0]), events[1..]))
  }

  predicate AllUnambiguous(shows: (Repo, string) -> bool, r: Review, events: seq<Event>)
    decreases |events|
  {
    events == [] || !Possible(shows, r, events[0])
    || (Unambiguous(shows, r, events[0]) && AllUnambiguous(shows, After(shows, r, events[0]), events[1..]))
  }

  lemma {:induction false} ProvenanceExactly(shows: (Repo, string) -> bool, r: Review, events: seq<Event>)
    requires Provenance(r) && Coherent(r)
    ensures AlwaysProvenance(shows, r, events) <==> AllUnambiguous(shows, r, events)
    decreases |events|
  {
    if events != [] && Possible(shows, r, events[0]) {
      EventKeepsProvenance(shows, r, events[0]);
      if Unambiguous(shows, r, events[0]) {
        EventKeepsCoherent(shows, r, events[0]);
        ProvenanceExactly(shows, After(shows, r, events[0]), events[1..]);
      } else {
        assert !Provenance(After(shows, r, events[0]));
      }
    }
  }

  /** Over every run of refreshes, failures, account changes, searches, page turns and checkboxes, each
      selected id is at every moment listed under the identity it was checked or saved with, if and
      only if no checkbox of the run adds an entry that is listed again, later, for another repository. */
  lemma SelectionHasProvenance(shows: (Repo, string) -> bool, events: seq<Event>)
    ensures AlwaysProvenance(shows, START, events) <==> AllUnambiguous(shows, START, events)
  {
    ProvenanceExactly(shows, START, events);
  }

  /** Lists that repeat no id never break it. */
  predicate Distinguished(e: Event) { e.Loaded? ==> Unique(Ids(e.items)) }

  lemma {:induction false} DistinctListingsAreUnambiguous(shows: (Repo, string) -> bool, r: Review, events: seq<Event>)
    requires Unique(Ids(r.repositories)) && forall k :: 0 <= k < |events| ==> Distinguished(events[k])
    ensures AllUnambiguous(shows, r, events)
    decreases |events|
  {
    if events != [] && Possible(shows, r, events[0]) {
      assert Distinguished(events[0]);
      if events[0].Toggle? {
        VisibleAreListed(shows, r, events[0].position);
        LookupUnique(r.repositories, Visible(shows, r)[events[0].position]);
      }
      DistinctListingsAreUnambiguous(shows, After(shows, r, events[0]), events[1..]);
    }
  }

  lemma {:induction false} RunsStayCoherent(shows: (Repo, string) -> bool, r: Review, events: seq<Event>)
    requires Coherent(r) && Reviewed(shows, r, events).Some?
    ensures Coherent(Reviewed(shows, r, events).value)
    decreases |events|
  {
    if events != [] {
      EventKeepsCoherent(shows, r, events[0]);
      RunsStayCoherent(shows, After(shows, r, events[0]), events[1..]);
    }
  }

  /** Whatever the lists, what a run leaves selected can be submitted as it stands exactly when it is
      neither empty nor above 500 entries, given ids in the safe range. */
  lemma SelectionIsSubmittable(shows: (Repo, string) -> bool, events: seq<Event>)
    requires Reviewed(shows, START, events).Some?
    ensures var r := Reviewed(shows, START, events).value;
            (forall repo :: repo in r.repositories ==> 0 < repo.id <= MAX_SAFE_INTEGER) ==>
              (SelectedIds(r.ids, Ids(r.repositories)).Some? <==> 1 <= |r.ids| <= 500)
  {
    RunsStayCoherent(shows, START, events);
    var r := Reviewed(shows, START, events).value;
    SubmissionIsExact(r.ids, Ids(r.repositories));
    forall id | id in r.ids && (forall repo :: repo in r.repositories ==> 0 < repo.id <= MAX_SAFE_INTEGER)
      ensures 0 < id <= MAX_SAFE_INTEGER && id in Ids(r.repositories)
    {
      var listed := Lookup(r.repositories, id).value;
      assert listed in r.repositories && listed.id == id;
    }
  }

  predicate Presentation(e: Event) { e.Search? || e.Turn? }

  /** Searching and leafing never change the selection, however many times. */
  lemma {:induction false} PresentationNeverSelects(shows: (Repo, string) -> bool, r: Review, events: seq<Event>)
    requires Reviewed(shows, r, events).Some? && forall k :: 0 <= k < |events| ==> Presentation(events[k])
    ensures var r' := Reviewed(shows, r, events).value;
            r'.ids == r.ids && r'.remembered == r.remembered && r'.repositories == r.repositories
            && r'.origin == r.origin
    decreases |events|
  {
    if events != [] {
      assert Presentation(events[0]);
      PresentationNeverSelects(shows, After(shows, r, events[0]), events[1..]);
    }
  }

  /** The panel itself: its references and state variables, updated by its effects and handlers. */
  class RepositoryReview {
    const shows: (Repo, string) -> bool
    var account: string
    var repositories: seq<Repo>
    var ids: seq<int>
    var remembered: Option<Remembered>
    var query: string
    var page: nat
    ghost var origin: map<int, Repo>

    ghost function State(): Review
      reads this
    {
      Review(account, repositories, ids, remembered, query, page, origin)
    }

    constructor (shows: (Repo, string) -> bool)
      ensures this.shows == shows && State() == START
    {
      this.shows := shows;
      account, repositories, ids, remembered, query, page, origin := "", [], [], None, "", 0, map[];
    }

    method ChooseAccount(account: string)
      modifies this
      ensures State() == After(shows, old(State()), Choose(account))
    {
      this.account := account;
    }

    /** The repository list of the selected account has arrived. */
    method ListLoaded(saved: seq<Repo>, items: seq<Repo>)
      modifies this
      ensures State() == After(shows, old(State()), Loaded(saved, items))
    {
      var previous := if remembered.Some? && remembered.value.account == account then remembered else None;
      var selected := if previous.Some? then previous.value.ids else Ids(saved);
      var before := if previous.Some? then previous.value.repositories else saved;
      var kept := Retain(selected, before, items);
      if previous == None { origin := Originals(origin, saved); }
      remembered := Some(Remembered(account, items, kept));
      repositories := items;
      ids := kept;
    }

    method ListUnavailable()
      modifies this
      ensures State() == After(shows, old(State()), Unavailable)
    {
      repositories := [];
      ids := [];
    }

    method SearchFor(query: string)
      modifies this
      ensures State() == After(shows, old(State()), Search(query))
    {
      this.query := query;
      page := 0;
    }

    method TurnPage(forward: bool)
      requires Possible(shows, State(), Turn(forward))
      modifies this
      ensures State() == After(shows, old(State()), Turn(forward))
    {
      var filtered := Searched(shows, repositories, query);
      var current := CurrentPage(|filtered|, page);
      page := if forward then current + 1 else current - 1;
    }

    method ToggleItem(position: nat)
      requires Possible(shows, State(), Toggle(position))
      modifies this
      ensures State() == After(shows, old(State()), Toggle(position))
    {
      var filtered := Searched(shows, repositories, query);
      var visible := PageOf(filtered, CurrentPage(|filtered|, page));
      var repo := visible[position];
      if repo.id in ids {
        ids := Filter(ids, id => id != repo.id);
      } else {
        ids := ids + [repo.id];
        origin := origin[repo.id := repo];
      }
      remembered := Some(Remembered(account, repositories, ids));
    }
  }
}
