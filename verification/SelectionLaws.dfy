/** What each event of a repository review does to what is selected and shown, said outright. */
module SelectionLaws {
  import opened Options
  import opened Sequences
  import opened Selection

  // ------------------------------------------------------------------------- lists

  /** The entry listed under an id: the last one. */
  predicate ListedLast(repos: seq<Repo>, repo: Repo) {
    exists k :: 0 <= k < |repos| && repos[k] == repo && forall j :: k < j < |repos| ==> repos[j].id != repo.id
  }

  lemma {:induction false} LookupExactly(repos: seq<Repo>, id: int, repo: Repo)
    ensures Lookup(repos, id) == Some(repo) <==> repo.id == id && ListedLast(repos, repo)
  {
    if repos != [] {
      var n := |repos| - 1;
      var front := repos[..n];
      LookupExactly(front, id, repo);
      if repo.id == id && ListedLast(repos, repo) && repos[n].id != id {
        var k :| 0 <= k < |repos| && repos[k] == repo && forall j :: k < j < |repos| ==> repos[j].id != repo.id;
        assert front[k] == repo;
      }
      if repo.id == id && ListedLast(front, repo) && repos[n].id != id {
        var k :| 0 <= k < n && front[k] == repo && forall j :: k < j < n ==> front[j].id != repo.id;
        assert forall j :: k < j < |repos| ==> j == n || repos[j] == front[j];
        assert repos[k] == repo;
      }
      if repos[n].id == id { LastIsListed(repos, id, repo); }
    }
  }

  lemma LastIsListed(repos: seq<Repo>, id: int, repo: Repo)
    requires repos != [] && repos[|repos| - 1].id == id
    ensures repo.id == id && ListedLast(repos, repo) <==> repo == repos[|repos| - 1]
  {
  }

  lemma UnlistedExactly(repos: seq<Repo>, id: int)
    ensures Lookup(repos, id) == None <==> forall k :: 0 <= k < |repos| ==> repos[k].id != id
  {
    assert id in Ids(repos) <==> exists k :: 0 <= k < |repos| && Ids(repos)[k] == id;
  }

  /** Filtering keeps the order: it works piece by piece. */
  lemma {:induction false} FilterJoins<T>(a: seq<T>, b: seq<T>, keep: T -> bool)
    ensures Filter(a + b, keep) == Filter(a, keep) + Filter(b, keep)
  {
    if a == [] {
      assert a + b == b;
    } else {
      assert (a + b)[1..] == a[1..] + b;
      FilterJoins(a[1..], b, keep);
    }
  }

  /** Two entries are one repository when they differ in the archived flag at most. */
  lemma OnlyArchivingIsNoChange(left: Repo, right: Repo)
    ensures SameIdentity(left, right) <==> left == right.(archived := left.archived)
  {
  }

  // ------------------------------------------------------------------- what changed

  /** Both lists end with the same repository under this id. */
  ghost predicate StillListed(before: seq<Repo>, after: seq<Repo>, id: int) {
    exists left, right ::
      && ListedLast(before, left) && ListedLast(after, right) && left.id == id
      && right == left.(archived := right.archived)
  }

  lemma KeptExactly(before: seq<Repo>, after: seq<Repo>, id: int)
    ensures Kept(before, after, id) <==> StillListed(before, after, id)
  {
    if Kept(before, after, id) {
      var left, right := Lookup(before, id).value, Lookup(after, id).value;
      LookupExactly(before, id, left);
      LookupExactly(after, id, right);
    }
    if StillListed(before, after, id) {
      var left, right :| ListedLast(before, left) && ListedLast(after, right) && left.id == id
                         && right == left.(archived := right.archived);
      LookupExactly(before, id, left);
      LookupExactly(after, id, right);
    }
  }

  /** A repository is reported added exactly when it is listed and none of the saved ones has its id,
      removed when it was saved and no listed one has, and changed when it is listed under an id that
      was last saved for another. */
  lemma ChangesExactly(saved: seq<Repo>, available: seq<Repo>, repo: Repo)
    ensures var changes := ChangesOf(saved, available);
            && (repo in changes.added <==>
                  repo in available && forall k :: 0 <= k < |saved| ==> saved[k].id != repo.id)
            && (repo in changes.removed <==>
                  repo in saved && forall k :: 0 <= k < |available| ==> available[k].id != repo.id)
            && (repo in changes.changed <==>
                  repo in available
                  && exists earlier :: ListedLast(saved, earlier) && earlier.id == repo.id
                       && repo != earlier.(archived := repo.archived))
  {
    FilterSpec(available, (r: Repo) => Lookup(saved, r.id) == None);
    FilterSpec(saved, (r: Repo) => Lookup(available, r.id) == None);
    FilterSpec(available, (r: Repo) => Moved(Lookup(saved, r.id), r));
    UnlistedExactly(saved, repo.id);
    UnlistedExactly(available, repo.id);
    MovedExactly(saved, repo);
  }

  lemma MovedExactly(saved: seq<Repo>, repo: Repo)
    ensures Moved(Lookup(saved, repo.id), repo) <==>
              exists earlier :: ListedLast(saved, earlier) && earlier.id == repo.id
                && repo != earlier.(archived := repo.archived)
  {
    var found := Lookup(saved, repo.id);
    if found.Some? { LookupExactly(saved, repo.id, found.value); }
    if earlier :| ListedLast(saved, earlier) && earlier.id == repo.id && repo != earlier.(archived := repo.archived) {
      LookupExactly(saved, repo.id, earlier);
    }
  }

  // ------------------------------------------------------------------------- events

  /** A checkbox selects its repository if it was not selected and unselects it if it was. Everything
      else stays selected or not, in its order, and the new choice is remembered with its list. */
  lemma ToggleExactly(shows: (Repo, string) -> bool, r: Review, position: nat)
    requires position < |Visible(shows, r)|
    ensures var repo, r' := Visible(shows, r)[position], After(shows, r, Toggle(position));
            && (forall id :: id in r'.ids <==> if id == repo.id then repo.id !in r.ids else id in r.ids)
            && r'.remembered == Some(Remembered(r.account, r.repositories, r'.ids))
            && r' == r.(ids := r'.ids, remembered := r'.remembered, origin := r'.origin)
            && (repo.id !in r.ids ==> r'.ids == r.ids + [repo.id])
  {
    var repo := Visible(shows, r)[position];
    FilterSpec(r.ids, id => id != repo.id);
    if repo.id !in r.ids {
      forall id ensures id in r.ids + [repo.id] <==> id == repo.id || id in r.ids { }
    }
  }

  lemma {:induction false} FilterNothing<T>(s: seq<T>, keep: T -> bool)
    requires forall x :: x in s ==> keep(x)
    ensures Filter(s, keep) == s
  {
    if s != [] {
      assert s[0] in s;
      FilterNothing(s[1..], keep);
    }
  }

  /** Checking a box and unchecking it again leaves the selection as it was, in its order. */
  lemma CheckingAndUnchecking(shows: (Repo, string) -> bool, r: Review, position: nat)
    requires position < |Visible(shows, r)| && Visible(shows, r)[position].id !in r.ids
    ensures var r' := After(shows, r, Toggle(position));
            && Possible(shows, r', Toggle(position))
            && After(shows, r', Toggle(position)).ids == r.ids
  {
    var repo, r' := Visible(shows, r)[position], After(shows, r, Toggle(position));
    assert Visible(shows, r') == Visible(shows, r);
    assert repo.id in r'.ids by { assert r'.ids[|r.ids|] == repo.id; }
    FilterJoins(r.ids, [repo.id], id => id != repo.id);
    FilterNothing(r.ids, id => id != repo.id);
    assert Filter([repo.id], (id: int) => id != repo.id) == [];
  }

  /** A list that arrives keeps exactly the ids that still stand for their repository: of the choice
      remembered for this account if there is one, and of the saved choice otherwise. */
  lemma LoadedExactly(shows: (Repo, string) -> bool, r: Review, saved: seq<Repo>, items: seq<Repo>)
    ensures var r' := After(shows, r, Loaded(saved, items));
            var ours := r.remembered.Some? && r.remembered.value.account == r.account;
            && Increasing(r'.ids)
            && (ours ==> forall id :: id in r'.ids <==>
                  id in r.remembered.value.ids && StillListed(r.remembered.value.repositories, items, id))
            && (!ours ==> forall id :: id in r'.ids <==> StillListed(saved, items, id))
            && r'.repositories == items && r'.remembered == Some(Remembered(r.account, items, r'.ids))
            && r'.account == r.account && r'.query == r.query && r'.page == r.page
  {
    var ours := r.remembered.Some? && r.remembered.value.account == r.account;
    var selected := if ours then r.remembered.value.ids else Ids(saved);
    var before := if ours then r.remembered.value.repositories else saved;
    RetainSpec(selected, before, items);
    forall id ensures Kept(before, items, id) <==> StillListed(before, items, id) { KeptExactly(before, items, id); }
    forall id | StillListed(saved, items, id) ensures id in Ids(saved) {
      KeptExactly(saved, items, id);
    }
  }

  /** Choosing an account and losing a list touch neither what is remembered nor the view. */
  lemma ChoosingKeeps(shows: (Repo, string) -> bool, r: Review, account: string)
    ensures var r' := After(shows, r, Choose(account)); r'.account == account && r' == r.(account := account)
    ensures var r' := After(shows, r, Unavailable);
            r'.ids == [] && Visible(shows, r') == [] && r' == r.(repositories := [], ids := [])
  {
  }

  // -------------------------------------------------------------------------- pages

  /** Page `page` shows entries `50 * page` onwards. */
  lemma PageShows<T>(items: seq<T>, page: nat, k: nat)
    requires page < PageCount(|items|)
    ensures k < |PageOf(items, page)| <==> k < 50 && 50 * page + k < |items|
    ensures k < |PageOf(items, page)| ==> PageOf(items, page)[k] == items[50 * page + k]
  {
  }

  /** The page a review shows: the remembered one if it exists, and else the last. */
  ghost predicate OnPage(shows: (Repo, string) -> bool, r: Review, page: nat) {
    page < PageCount(|Matching(shows, r)|) && Visible(shows, r) == PageOf(Matching(shows, r), page)
  }

  /** Turning goes from the page shown to the next or the one before, over the same matches; it is possible
      exactly when there is one. */
  lemma TurnExactly(shows: (Repo, string) -> bool, r: Review, forward: bool)
    ensures var n, current := |Matching(shows, r)|, CurrentPage(|Matching(shows, r)|, r.page);
            && OnPage(shows, r, current)
            && (Possible(shows, r, Turn(forward)) <==>
                  if forward then 50 * (current + 1) < n else current > 0)
            && (Possible(shows, r, Turn(forward)) ==>
                  var r' := After(shows, r, Turn(forward));
                  && Matching(shows, r') == Matching(shows, r)
                  && OnPage(shows, r', if forward then current + 1 else current - 1))
  {
  }

  /** A search starts on the first page of the repositories it matches, in the order listed. */
  lemma SearchExactly(shows: (Repo, string) -> bool, r: Review, query: string)
    ensures var r' := After(shows, r, Search(query));
            && OnPage(shows, r', 0)
            && forall repo :: repo in Matching(shows, r') <==> repo in r.repositories && shows(repo, query)
  {
    FilterSpec(r.repositories, (repo: Repo) => shows(repo, query));
  }
}
