/**
 * The `tingg:fetch-update` console command: dispatches one poll job per
 * live PROCESSING mirror, or reports that there is none.
 */
module FetchTransactionsUpdateCommand {
  import opened TransactionStateCodes
  import opened Models

  /** The rows the command's query selects: state PROCESSING, not soft-deleted. */
  predicate Unfinished(t: Transaction)
    reads t
  {
    !t.deleted && t.stateCode == PROCESSING
  }

  /** The ids of the selected rows, in table order. */
  function PollTargets(rows: seq<Transaction>): (ids: seq<string>)
    reads rows
    ensures |ids| <= |rows|
    ensures forall id :: id in ids <==> exists i :: 0 <= i < |rows| && Unfinished(rows[i]) && rows[i].id == id
  {
    if rows == [] then []
    else
      var last := rows[|rows| - 1];
      var rest := PollTargets(rows[..|rows| - 1]);
      if Unfinished(last) then rest + [last.id] else rest
  }

  /** The count the command's query reports. */
  function CountUnfinished(rows: seq<Transaction>): nat
    reads rows
  {
    if rows == [] then 0
    else CountUnfinished(rows[1..]) + (if Unfinished(rows[0]) then 1 else 0)
  }

  /** The count and the dispatched jobs come from the same selection. */
  lemma {:induction false} CountMatchesTargets(rows: seq<Transaction>)
    ensures CountUnfinished(rows) == |PollTargets(rows)|
  {
    if rows != [] {
      CountMatchesTargets(rows[..|rows| - 1]);
      CountSplitsAtEnd(rows);
    }
  }

  lemma {:induction false} CountSplitsAtEnd(rows: seq<Transaction>)
    requires rows != []
    ensures CountUnfinished(rows) == CountUnfinished(rows[..|rows| - 1]) + (if Unfinished(rows[|rows| - 1]) then 1 else 0)
  {
    if |rows| > 1 {
      CountSplitsAtEnd(rows[1..]);
      assert rows[1..][..|rows[1..]| - 1] == rows[..|rows| - 1][1..];
    }
  }

  /** Rows with distinct ids give distinct poll targets: no mirror is polled twice by one run. */
  lemma {:induction false} PollTargetsDistinct(rows: seq<Transaction>)
    requires forall i, j :: 0 <= i < j < |rows| ==> rows[i].id != rows[j].id
    ensures forall i, j :: 0 <= i < j < |PollTargets(rows)| ==> PollTargets(rows)[i] != PollTargets(rows)[j]
  {
    if rows != [] {
      var prefix := rows[..|rows| - 1];
      PollTargetsDistinct(prefix);
      var last := rows[|rows| - 1];
      var earlier := PollTargets(prefix);
      forall k | 0 <= k < |earlier|
        ensures earlier[k] != last.id
      {
        assert earlier[k] in earlier;
        var i :| 0 <= i < |prefix| && Unfinished(prefix[i]) && prefix[i].id == earlier[k];
        assert prefix[i] == rows[i];
      }
    }
  }

  /** What the command prints: that nothing is unfinished, or how many jobs it dispatches. */
  datatype Report = NothingUnfinished | Dispatched(count: nat)

  /**
   * `handle`: counts the selection, stops with an error line when it is
   * empty, and otherwise dispatches a poll job for each selected row, so
   * each live PROCESSING mirror is polled exactly once.
   */
  method Handle(store: TransactionStore) returns (dispatched: seq<string>, report: Report)
    requires store.Valid()
    ensures dispatched == PollTargets(store.rows)
    ensures forall i, j :: 0 <= i < j < |dispatched| ==> dispatched[i] != dispatched[j]
    ensures report == NothingUnfinished <==> dispatched == []
    ensures report.Dispatched? ==> report.count == |dispatched|
  {
    var rows := store.rows;
    var count := CountUnfinished(rows);
    CountMatchesTargets(rows);
    PollTargetsDistinct(rows);
    if count == 0 {
      return [], NothingUnfinished;
    }
    dispatched := [];
    var i := 0;
    while i < |rows|
      invariant 0 <= i <= |rows|
      invariant dispatched == PollTargets(rows[..i])
    {
      assert rows[..i + 1][..i] == rows[..i];
      if Unfinished(rows[i]) {
        dispatched := dispatched + [rows[i].id];
      }
      i := i + 1;
    }
    assert rows[..i] == rows;
    report := Dispatched(count);
  }

  /** A table with one row dispatches exactly when that row is live and PROCESSING. */
  lemma SingleRow(t: Transaction)
    ensures PollTargets([t]) == (if !t.deleted && t.stateCode == PROCESSING then [t.id] else [])
  {
  }
}
