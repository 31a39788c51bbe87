/** In which order one recovery call takes rows, and how many, said outright. */
module RecoveryLaws {
  import opened Options
  import opened CollectionRows
  import opened Sequences
  import opened CollectionRecovery

  /** No row at all is due before another of the list that it is listed after. */
  predicate EarliestFirst(rows: seq<Row>) {
    forall i, j :: 0 <= i < j < |rows| ==>
      || rows[i].job.availableAt < rows[j].job.availableAt
      || (rows[i].job.availableAt == rows[j].job.availableAt
          && (rows[i].updatedAt < rows[j].updatedAt
              || (rows[i].updatedAt == rows[j].updatedAt && rows[i].id < rows[j].id)))
  }

  predicate LongestUntouchedFirst(rows: seq<Row>) {
    forall i, j :: 0 <= i < j < |rows| ==>
      rows[i].updatedAt < rows[j].updatedAt || (rows[i].updatedAt == rows[j].updatedAt && rows[i].id < rows[j].id)
  }

  /** A row can be listed: a due GitHub row within 48 hours of an active GitHub connection, queued or
      under a lease that has run out. */
  predicate Waiting(row: Row, now: int) {
    && row.job.kind == GithubSource && row.job.availableAt <= now
    && row.job.createdAt > now - 48 * 3600 * 1_000_000
    && row.conn.active && row.conn.provider == Github
    && (row.job.state == Queued
        || (row.job.state == Running && row.job.leaseExpiresAt.Some? && row.job.leaseExpiresAt.value < now))
  }

  /** A row is to be ended: an unfinished GitHub row that is 48 hours old or whose connection is no
      active GitHub one. */
  predicate Lost(row: Row, now: int) {
    && row.job.kind == GithubSource && (row.job.state == Queued || row.job.state == Running)
    && (row.job.createdAt <= now - 48 * 3600 * 1_000_000 || !row.conn.active || row.conn.provider != Github)
  }

  lemma SelectedExactly(row: Row, now: int)
    ensures Selected(Listing, row, now) <==> Waiting(row, now)
    ensures Selected(Ending, row, now) <==> Lost(row, now)
    ensures !(Waiting(row, now) && Lost(row, now))
  {
  }

  /** A call lists waiting rows, as many as there are up to the limit, the earliest due ones first: none
      that it leaves out is due before one that it lists. */
  lemma ListsTheEarliest(rows: seq<Row>, now: int, limit: nat)
    requires UniqueIds(rows)
    ensures var listed := Cut(Listing, rows, now, limit);
            && EarliestFirst(listed) && |listed| <= limit
            && (forall row :: row in listed ==> row in rows && Waiting(row, now))
            && (forall row, left :: row in listed && left in rows && Waiting(left, now) && left !in listed ==>
                  row.job.availableAt <= left.job.availableAt)
            && ((exists left :: left in rows && Waiting(left, now) && left !in listed) ==> |listed| == limit)
  {
    var ordered, listed := Ordered(Listing, rows, now), Cut(Listing, rows, now, limit);
    forall row ensures Selected(Listing, row, now) <==> Waiting(row, now) { SelectedExactly(row, now); }
    assert listed == ordered[..|listed|];
    forall row, left | row in listed && left in rows && Waiting(left, now) && left !in listed
      ensures row.job.availableAt <= left.job.availableAt
    {
      var i :| 0 <= i < |listed| && listed[i] == row;
      var j :| 0 <= j < |ordered| && ordered[j] == left;
      assert forall m :: 0 <= m < |listed| ==> ordered[m] == listed[m];
      assert Before(Listing, ordered[i], ordered[j]);
    }
  }

  /** A call ends lost rows, up to the limit, those touched longest ago first. */
  lemma EndsTheOldest(rows: seq<Row>, now: int, limit: nat)
    requires UniqueIds(rows)
    ensures var ended := Cut(Ending, rows, now, limit);
            && LongestUntouchedFirst(ended) && |ended| <= limit
            && (forall row :: row in ended ==> row in rows && Lost(row, now))
            && (forall row, left :: row in ended && left in rows && Lost(left, now) && left !in ended ==>
                  row.updatedAt <= left.updatedAt)
            && ((exists left :: left in rows && Lost(left, now) && left !in ended) ==> |ended| == limit)
  {
    var ordered, ended := Ordered(Ending, rows, now), Cut(Ending, rows, now, limit);
    forall row ensures Selected(Ending, row, now) <==> Lost(row, now) { SelectedExactly(row, now); }
    assert ended == ordered[..|ended|];
    forall row, left | row in ended && left in rows && Lost(left, now) && left !in ended
      ensures row.updatedAt <= left.updatedAt
    {
      var i :| 0 <= i < |ended| && ended[i] == row;
      var j :| 0 <= j < |ordered| && ordered[j] == left;
      assert forall m :: 0 <= m < |ended| ==> ordered[m] == ended[m];
      assert Before(Ending, ordered[i], ordered[j]);
    }
  }

  /** Ending fails the row and drops its lease; every row that is not ended stays as it is. */
  lemma EndingExactly(rows: seq<Row>, now: int, limit: nat, k: nat)
    requires UniqueIds(rows) && k < |rows|
    ensures var row, row' := rows[k], AfterEnding(rows, now, limit)[k];
            row' == if row in Cut(Ending, rows, now, limit)
                    then row.(job := row.job.(state := Terminated, leaseExpiresAt := None)) else row
  {
  }
}
