/** One recovery call over many rows: it fails the rows that can no longer run, lists the due ones, and
    cuts both at a limit. */
module CollectionRecovery {
  import opened Options
  import opened WorkerLimits
  import opened CollectionRows
  import opened Sequences

  datatype Row = Row(id: nat, job: Job, conn: Connection, updatedAt: int)

  predicate UniqueIds(rows: seq<Row>) {
    forall i, j :: 0 <= i < j < |rows| ==> rows[i].id != rows[j].id
  }

  /** The call's two selections. */
  datatype Pick = Ending | Listing

  predicate Unrunnable(row: Row, now: int) {
    && row.job.kind == GithubSource && Active(row.job)
    && (!row.conn.active || row.conn.provider != Github || !WithinWindow(row.job, now))
  }

  predicate Selected(sel: Pick, row: Row, now: int) {
    match sel
    case Ending => Unrunnable(row, now)
    case Listing => Due(row.job, row.conn, now)
  }

  /** ORDER BY updated_at, id, the listing with available_at in front. */
  predicate Before(sel: Pick, a: Row, b: Row) {
    || (sel.Listing? && a.job.availableAt < b.job.availableAt)
    || ((sel.Listing? ==> a.job.availableAt == b.job.availableAt)
        && (a.updatedAt < b.updatedAt || (a.updatedAt == b.updatedAt && a.id < b.id)))
  }

  predicate InOrder(sel: Pick, rows: seq<Row>) {
    forall i, j :: 0 <= i < j < |rows| ==> Before(sel, rows[i], rows[j])
  }

  function Insert(sel: Pick, row: Row, ordered: seq<Row>): (r: seq<Row>)
    requires InOrder(sel, ordered) && forall x :: x in ordered ==> x.id != row.id
    ensures InOrder(sel, r) && |r| == |ordered| + 1
    ensures forall x :: x in r <==> x == row || x in ordered
  {
    if ordered == [] then [row]
    else if Before(sel, row, ordered[0]) then [row] + ordered
    else
      var rest := Insert(sel, row, ordered[1..]);
      assert forall x :: x in rest ==> Before(sel, ordered[0], x);
      [ordered[0]] + rest
  }

  /** The selected rows in order. */
  function Ordered(sel: Pick, rows: seq<Row>, now: int): (r: seq<Row>)
    requires UniqueIds(rows)
    ensures InOrder(sel, r)
    ensures forall x :: x in r <==> x in rows && Selected(sel, x, now)
  {
    if rows == [] then []
    else
      var rest := Ordered(sel, rows[1..], now);
      assert forall x :: x in rest ==> x.id != rows[0].id;
      if Selected(sel, rows[0], now) then Insert(sel, rows[0], rest) else rest
  }

  function Cut(sel: Pick, rows: seq<Row>, now: int, limit: nat): seq<Row>
    requires UniqueIds(rows)
  {
    var selected := Ordered(sel, rows, now);
    if |selected| <= limit then selected else selected[..limit]
  }

  /** The selected rows that come before `row`. */
  function Ahead(sel: Pick, rows: seq<Row>, now: int, row: Row): set<Row> {
    set x | x in rows && Selected(sel, x, now) && Before(sel, x, row)
  }

  lemma PrefixSize(sel: Pick, ordered: seq<Row>, k: nat)
    requires InOrder(sel, ordered) && k <= |ordered|
    ensures |Members(ordered[..k])| == k
  {
    assert Unique(ordered[..k]) by {
      assert forall i, j :: 0 <= i < j < k ==> Before(sel, ordered[i], ordered[j]);
    }
    MembersCount(ordered[..k]);
  }

  /** A row is in a cut selection exactly when it is selected and fewer than `limit` selected rows come
      before it. */
  lemma CutExactlyAtTheLimit(sel: Pick, rows: seq<Row>, now: int, limit: nat, row: Row)
    requires UniqueIds(rows) && row in rows
    ensures row in Cut(sel, rows, now, limit) <==> Selected(sel, row, now) && |Ahead(sel, rows, now, row)| < limit
  {
    var selected := Ordered(sel, rows, now);
    if Selected(sel, row, now) {
      var k :| 0 <= k < |selected| && selected[k] == row;
      PrefixSize(sel, selected, k);
      assert Ahead(sel, rows, now, row) == Members(selected[..k]) by {
        forall x | x in Ahead(sel, rows, now, row) ensures x in selected[..k] {
          var j :| 0 <= j < |selected| && selected[j] == x;
          assert j < k;
          assert selected[..k][j] == x;
        }
      }
      if |selected| > limit && k < limit { assert selected[..limit][k] == row; }
    }
  }

  // ------------------------------------------------------------------ the whole call

  function Ended(row: Row): Row { row.(job := Stopped(row.job)) }

  /** On one row the failing statement is the one of the row table. */
  lemma EndedIsRecovered(row: Row, now: int)
    ensures RecoverRow(row.job, row.conn, now) == if Unrunnable(row, now) then Ended(row).job else row.job
  {
  }

  /** The rows once the first statement has failed those it picked. */
  function AfterEnding(rows: seq<Row>, now: int, limit: nat): (r: seq<Row>)
    requires UniqueIds(rows)
    ensures UniqueIds(r) && |r| == |rows|
  {
    var picked := Cut(Ending, rows, now, limit);
    seq(|rows|, k requires 0 <= k < |rows| => if rows[k] in picked then Ended(rows[k]) else rows[k])
  }

  /** The recovery call: the failing statement, then the listing one. */
  method Recover(rows: seq<Row>, now: int, limit: nat) returns (rows': seq<Row>, listed: seq<Row>)
    requires UniqueIds(rows)
    ensures rows' == AfterEnding(rows, now, limit)
    ensures listed == Cut(Listing, rows', now, limit)
  {
    var picked := Cut(Ending, rows, now, limit);
    rows' := [];
    for k := 0 to |rows|
      invariant |rows'| == k
      invariant forall j :: 0 <= j < k ==> rows'[j] == if rows[j] in picked then Ended(rows[j]) else rows[j]
    {
      rows' := rows' + [if rows[k] in picked then Ended(rows[k]) else rows[k]];
    }
    assert rows' == AfterEnding(rows, now, limit);
    listed := Cut(Listing, rows', now, limit);
  }

  /** What the call does to the row at `k`. */
  predicate Reached(rows: seq<Row>, now: int, limit: nat, k: nat)
    requires UniqueIds(rows) && k < |rows|
  {
    var rows' := AfterEnding(rows, now, limit);
    Terminal(rows'[k].job) || rows'[k] in Cut(Listing, rows', now, limit)
  }

  lemma ListingIgnoresEnding(rows: seq<Row>, now: int, limit: nat, row: Row)
    requires UniqueIds(rows)
    ensures var rows' := AfterEnding(rows, now, limit);
            Ahead(Listing, rows', now, row) == Ahead(Listing, rows, now, row)
  {
    var rows' := AfterEnding(rows, now, limit);
    var picked := Cut(Ending, rows, now, limit);
    forall x | x in rows && x in picked ensures Unrunnable(x, now) {
      CutExactlyAtTheLimit(Ending, rows, now, limit, x);
    }
    forall x | x in Ahead(Listing, rows, now, row) ensures x in rows' {
      var j :| 0 <= j < |rows| && rows[j] == x;
      assert rows'[j] == x;
    }
    forall x | x in Ahead(Listing, rows', now, row) ensures x in rows {
      var j :| 0 <= j < |rows'| && rows'[j] == x;
      assert rows'[j] == rows[j];
    }
  }

  /** The call ends a row or lists it exactly when the row was over already, or can no longer run with
      fewer than `limit` such rows before it, or is due with fewer than `limit` due rows before it. */
  lemma ReachedExactlyWithinTheLimit(rows: seq<Row>, now: int, limit: nat, k: nat)
    requires UniqueIds(rows) && k < |rows|
    ensures Reached(rows, now, limit, k) <==>
              || Terminal(rows[k].job)
              || (Unrunnable(rows[k], now) && |Ahead(Ending, rows, now, rows[k])| < limit)
              || (Due(rows[k].job, rows[k].conn, now) && |Ahead(Listing, rows, now, rows[k])| < limit)
  {
    var rows' := AfterEnding(rows, now, limit);
    CutExactlyAtTheLimit(Ending, rows, now, limit, rows[k]);
    CutExactlyAtTheLimit(Listing, rows', now, limit, rows'[k]);
    if rows'[k] == rows[k] { ListingIgnoresEnding(rows, now, limit, rows[k]); }
  }

  // ------------------------------------------------------------- call after call

  function Minus(n: nat, limit: nat): nat { if n <= limit then 0 else n - limit }

  lemma OrderedIsUnique(sel: Pick, rows: seq<Row>, now: int)
    requires UniqueIds(rows)
    ensures |Members(Ordered(sel, rows, now))| == |Ordered(sel, rows, now)|
  {
    PrefixSize(sel, Ordered(sel, rows, now), |Ordered(sel, rows, now)|);
    assert Ordered(sel, rows, now)[..|Ordered(sel, rows, now)|] == Ordered(sel, rows, now);
  }

  lemma CutSize(sel: Pick, rows: seq<Row>, now: int, limit: nat)
    requires UniqueIds(rows)
    ensures Members(Cut(sel, rows, now, limit)) <= Members(Ordered(sel, rows, now))
    ensures |Members(Ordered(sel, rows, now))| - |Members(Cut(sel, rows, now, limit))|
            == Minus(|Ordered(sel, rows, now)|, limit)
  {
    OrderedIsUnique(sel, rows, now);
    var n := |Ordered(sel, rows, now)|;
    PrefixSize(sel, Ordered(sel, rows, now), if n <= limit then n else limit);
    assert Ordered(sel, rows, now)[..n] == Ordered(sel, rows, now);
  }

  /** The rows picked no longer qualify and the others stay. */
  predicate Settles(sel: Pick, rows: seq<Row>, rows': seq<Row>, now: int, picked: seq<Row>) {
    && |rows'| == |rows|
    && forall k :: 0 <= k < |rows| ==>
         if rows[k] in picked then !Selected(sel, rows'[k], now) else rows'[k] == rows[k]
  }

  lemma PickedAreGone(sel: Pick, rows: seq<Row>, rows': seq<Row>, now: int, picked: seq<Row>, x: Row)
    requires UniqueIds(rows) && Settles(sel, rows, rows', now, picked)
    ensures x in rows' && Selected(sel, x, now) <==> x in rows && Selected(sel, x, now) && x !in picked
  {
    if x in rows' && Selected(sel, x, now) {
      var k :| 0 <= k < |rows'| && rows'[k] == x;
      assert rows'[k] == rows[k];
    }
    if x in rows && Selected(sel, x, now) && x !in picked {
      var k :| 0 <= k < |rows| && rows[k] == x;
      assert rows'[k] == x;
    }
  }

  /** Then as many fewer qualify as were picked. */
  lemma PickingShrinks(sel: Pick, rows: seq<Row>, rows': seq<Row>, now: int, limit: nat)
    requires UniqueIds(rows) && UniqueIds(rows')
    requires Settles(sel, rows, rows', now, Cut(sel, rows, now, limit))
    ensures |Ordered(sel, rows', now)| == Minus(|Ordered(sel, rows, now)|, limit)
  {
    var before, after := Members(Ordered(sel, rows, now)), Members(Ordered(sel, rows', now));
    var picked := Members(Cut(sel, rows, now, limit));
    forall x ensures x in after <==> x in before - picked {
      PickedAreGone(sel, rows, rows', now, Cut(sel, rows, now, limit), x);
    }
    assert after == before - picked;
    CutSize(sel, rows, now, limit);
    OrderedIsUnique(sel, rows', now);
    assert |before - picked| == |before| - |picked| by { assert before == (before - picked) + picked; }
  }

  /** The failing statement leaves as many due rows as there were, at the same places. */
  lemma EndingKeepsTheDue(rows: seq<Row>, now: int, limit: nat)
    requires UniqueIds(rows)
    ensures |Ordered(Listing, AfterEnding(rows, now, limit), now)| == |Ordered(Listing, rows, now)|
  {
    var rows' := AfterEnding(rows, now, limit);
    forall x ensures x in Ordered(Listing, rows', now) <==> x in Ordered(Listing, rows, now) {
      if x in Ordered(Listing, rows', now) {
        var k :| 0 <= k < |rows'| && rows'[k] == x;
        assert rows'[k] == rows[k];
      }
      if x in Ordered(Listing, rows, now) {
        var k :| 0 <= k < |rows| && rows[k] == x;
        CutExactlyAtTheLimit(Ending, rows, now, limit, x);
        assert rows'[k] == x;
      }
    }
    OrderedIsUnique(Listing, rows, now);
    OrderedIsUnique(Listing, rows', now);
    assert Members(Ordered(Listing, rows', now)) == Members(Ordered(Listing, rows, now));
  }

  function Claimed(row: Row, now: int, lease: nat): Row {
    row.(job := ClaimRow(row.job, row.conn, now, lease))
  }

  /** A call whose listed rows are all claimed at once. */
  function AfterServing(rows: seq<Row>, now: int, limit: nat, lease: nat): (r: seq<Row>)
    requires UniqueIds(rows)
    ensures UniqueIds(r) && |r| == |rows|
  {
    var rows' := AfterEnding(rows, now, limit);
    var listed := Cut(Listing, rows', now, limit);
    seq(|rows'|, k requires 0 <= k < |rows'| => if rows'[k] in listed then Claimed(rows'[k], now, lease) else rows'[k])
  }

  /** The rows after several calls; between them listed rows are claimed, or nothing happens. */
  function AfterCalls(rows: seq<Row>, now: int, limit: nat, lease: nat, claimed: bool, calls: nat): (r: seq<Row>)
    requires UniqueIds(rows)
    ensures UniqueIds(r)
  {
    if calls == 0 then rows
    else
      var before := AfterCalls(rows, now, limit, lease, claimed, calls - 1);
      if claimed then AfterServing(before, now, limit, lease) else AfterEnding(before, now, limit)
  }

  lemma EndingShrinks(rows: seq<Row>, now: int, limit: nat)
    requires UniqueIds(rows)
    ensures |Ordered(Ending, AfterEnding(rows, now, limit), now)| == Minus(|Ordered(Ending, rows, now)|, limit)
  {
    PickingShrinks(Ending, rows, AfterEnding(rows, now, limit), now, limit);
  }

  lemma ServingShrinks(rows: seq<Row>, now: int, limit: nat, lease: nat)
    requires UniqueIds(rows)
    ensures |Ordered(Listing, AfterServing(rows, now, limit, lease), now)| ==
            Minus(|Ordered(Listing, rows, now)|, limit)
  {
    var rows' := AfterEnding(rows, now, limit);
    EndingKeepsTheDue(rows, now, limit);
    forall k | 0 <= k < |rows'| && rows'[k] in Cut(Listing, rows', now, limit)
      ensures !Selected(Listing, Claimed(rows'[k], now, lease), now)
    {
      CutExactlyAtTheLimit(Listing, rows', now, limit, rows'[k]);
    }
    PickingShrinks(Listing, rows', AfterServing(rows, now, limit, lease), now, limit);
  }

  lemma MinusTwice(n: nat, limit: nat, calls: nat)
    requires calls > 0
    ensures Minus(Minus(n, (calls - 1) * limit), limit) == Minus(n, calls * limit)
  {
    assert calls * limit == (calls - 1) * limit + limit;
  }

  /** Rows that can no longer run: each call ends `limit` of them, so all are ended exactly from the
      call on by which the limits add up to their number. */
  lemma {:induction false} AllAreEndedExactly(rows: seq<Row>, now: int, limit: nat, lease: nat, calls: nat)
    requires UniqueIds(rows)
    ensures var n, left := |Ordered(Ending, rows, now)|,
                           |Ordered(Ending, AfterCalls(rows, now, limit, lease, false, calls), now)|;
            left == Minus(n, calls * limit) && (left == 0 <==> n <= calls * limit)
  {
    if calls > 0 {
      AllAreEndedExactly(rows, now, limit, lease, calls - 1);
      EndingShrinks(AfterCalls(rows, now, limit, lease, false, calls - 1), now, limit);
      MinusTwice(|Ordered(Ending, rows, now)|, limit, calls);
    }
  }

  /** Due rows whose listings are claimed: the same, so none waits for more than its share of calls. */
  lemma {:induction false} AllAreServedExactly(rows: seq<Row>, now: int, limit: nat, lease: nat, calls: nat)
    requires UniqueIds(rows)
    ensures var n, left := |Ordered(Listing, rows, now)|,
                           |Ordered(Listing, AfterCalls(rows, now, limit, lease, true, calls), now)|;
            left == Minus(n, calls * limit) && (left == 0 <==> n <= calls * limit)
  {
    if calls > 0 {
      AllAreServedExactly(rows, now, limit, lease, calls - 1);
      ServingShrinks(AfterCalls(rows, now, limit, lease, true, calls - 1), now, limit, lease);
      MinusTwice(|Ordered(Listing, rows, now)|, limit, calls);
    }
  }

  /** Due rows whose listings are not claimed: every later call lists the same ones, so a due row with
      `limit` due rows before it is never listed, however many calls are made. */
  lemma {:induction false} UnclaimedListingsStarve(rows: seq<Row>, now: int, limit: nat, lease: nat, calls: nat,
                                                   row: Row)
    requires UniqueIds(rows) && row in rows && Due(row.job, row.conn, now)
    ensures var later := AfterCalls(rows, now, limit, lease, false, calls);
            && row in later && Ahead(Listing, later, now, row) == Ahead(Listing, rows, now, row)
            && (row in Cut(Listing, later, now, limit) <==> |Ahead(Listing, rows, now, row)| < limit)
  {
    var later := AfterCalls(rows, now, limit, lease, false, calls);
    if calls > 0 {
      UnclaimedListingsStarve(rows, now, limit, lease, calls - 1, row);
      var before := AfterCalls(rows, now, limit, lease, false, calls - 1);
      ListingIgnoresEnding(before, now, limit, row);
      CutExactlyAtTheLimit(Ending, before, now, limit, row);
      var k :| 0 <= k < |before| && before[k] == row;
      assert later[k] == row;
    }
    CutExactlyAtTheLimit(Listing, later, now, limit, row);
  }
}
