/**
 * The Load stage: persist a table to the store, trying one batch insert and
 * falling back to one insert per record when the batch is rejected. The
 * store is an oracle: `batchAccepted` answers the batch insert and
 * `singleAccepted[i]` answers the i-th individual insert.
 */
module Load {
  import opened Wrappers

  datatype Status = Skipped | Success | Partial {
    /** The text of the outcome's `status` entry. */
    function Label(): string {
      match this
      case Skipped => "skipped"
      case Success => "success"
      case Partial => "partial"
    }
  }

  /** A row as sent to the store: the caller's row plus the shared extraction timestamp. */
  datatype Record<R> = Record(row: R, extractionTimestamp: string)

  /** One write the stage makes to the store. */
  datatype Write<R> = BatchInsert(records: seq<Record<R>>) | SingleInsert(record: Record<R>)

  /** The outcome report; `failedRecords` is present only after the fallback. */
  datatype Report<R> = Report(status: Status, loaded: nat, failed: nat, failedRecords: Option<seq<Record<R>>>)

  /** The records sent: each row of the table, in order, stamped with the same time. */
  function Stamp<R>(rows: seq<R>, now: string): (records: seq<Record<R>>)
    ensures |records| == |rows|
    ensures forall i :: 0 <= i < |rows| ==> records[i].row == rows[i]
    ensures forall i, j :: 0 <= i < |rows| && 0 <= j < |rows| ==>
      records[i].extractionTimestamp == records[j].extractionTimestamp == now
  {
    seq(|rows|, i requires 0 <= i < |rows| => Record(rows[i], now))
  }

  /** How many of the individual inserts the store accepted. */
  function CountAccepted(accepted: seq<bool>): (n: nat)
    ensures n <= |accepted|
  {
    if accepted == [] then 0
    else CountAccepted(accepted[..|accepted| - 1]) + (if accepted[|accepted| - 1] then 1 else 0)
  }

  /** The records whose individual insert the store rejected, kept in input order. */
  function Rejected<X>(records: seq<X>, accepted: seq<bool>): (bad: seq<X>)
    requires |accepted| == |records|
    ensures |bad| + CountAccepted(accepted) == |records|
  {
    if records == [] then []
    else
      var n := |records| - 1;
      Rejected(records[..n], accepted[..n]) + (if accepted[n] then [] else [records[n]])
  }

  /**
   * The positions of the rejected inserts: strictly increasing, each one a
   * rejection, and every rejection listed.
   */
  function RejectedPositions(accepted: seq<bool>): (ps: seq<nat>)
    ensures forall k :: 0 <= k < |ps| ==> ps[k] < |accepted| && !accepted[ps[k]]
    ensures forall k, l :: 0 <= k < l < |ps| ==> ps[k] < ps[l]
    ensures forall i :: 0 <= i < |accepted| && !accepted[i] ==> i in ps
  {
    if accepted == [] then []
    else
      var n := |accepted| - 1;
      RejectedPositions(accepted[..n]) + (if accepted[n] then [] else [n])
  }

  /**
   * The failed-record list is exactly the subsequence of the records at the
   * rejected positions: the k-th failure is the record at the k-th rejected
   * position.
   */
  lemma {:induction false} RejectedIsSubsequence<X>(records: seq<X>, accepted: seq<bool>)
    requires |accepted| == |records|
    ensures |Rejected(records, accepted)| == |RejectedPositions(accepted)|
    ensures forall k :: 0 <= k < |Rejected(records, accepted)| ==>
      Rejected(records, accepted)[k] == records[RejectedPositions(accepted)[k]]
  {
    if records != [] {
      var n := |records| - 1;
      RejectedIsSubsequence(records[..n], accepted[..n]);
      var bad := Rejected(records[..n], accepted[..n]);
      var ps := RejectedPositions(accepted[..n]);
      var all := Rejected(records, accepted);
      var pall := RejectedPositions(accepted);
      assert all == bad + (if accepted[n] then [] else [records[n]]);
      assert pall == ps + (if accepted[n] then [] else [n]);
      forall k | 0 <= k < |all|
        ensures all[k] == records[pall[k]]
      {
        if k < |bad| {
          assert all[k] == bad[k] == records[..n][ps[k]];
          assert pall[k] == ps[k];
        }
      }
    }
  }

  /** When every individual insert succeeds nothing is reported failed; when every one fails, all are. */
  lemma RejectedExtremes<X>(records: seq<X>, accepted: seq<bool>)
    requires |accepted| == |records|
    ensures (forall i :: 0 <= i < |accepted| ==> accepted[i]) ==>
      Rejected(records, accepted) == [] && CountAccepted(accepted) == |records|
    ensures (forall i :: 0 <= i < |accepted| ==> !accepted[i]) ==>
      Rejected(records, accepted) == records && CountAccepted(accepted) == 0
  {
    if forall i :: 0 <= i < |accepted| ==> accepted[i] {
      AllAccepted(records, accepted);
    }
    if forall i :: 0 <= i < |accepted| ==> !accepted[i] {
      AllRejected(records, accepted);
    }
  }

  lemma {:induction false} AllAccepted<X>(records: seq<X>, accepted: seq<bool>)
    requires |accepted| == |records|
    requires forall i :: 0 <= i < |accepted| ==> accepted[i]
    ensures Rejected(records, accepted) == []
  {
    if records != [] {
      var n := |records| - 1;
      assert forall i :: 0 <= i < n ==> accepted[..n][i];
      AllAccepted(records[..n], accepted[..n]);
    }
  }

  lemma {:induction false} AllRejected<X>(records: seq<X>, accepted: seq<bool>)
    requires |accepted| == |records|
    requires forall i :: 0 <= i < |accepted| ==> !accepted[i]
    ensures Rejected(records, accepted) == records
  {
    if records != [] {
      var n := |records| - 1;
      assert forall i :: 0 <= i < n ==> !accepted[..n][i];
      AllRejected(records[..n], accepted[..n]);
      assert records == records[..n] + [records[n]];
    }
  }

  lemma PrefixStep<X>(s: seq<X>, i: nat)
    requires i < |s|
    ensures s[..i + 1][..i] == s[..i]
    ensures s[..i + 1][i] == s[i]
  {
  }

  /**
   * Load a table. An empty table is skipped without touching the store. The
   * batch insert comes first; if the store accepts it, everything is loaded.
   * Otherwise each record is inserted on its own, in order, and a rejected
   * record does not stop the loop; the report is then "partial" whatever the
   * individual answers were, and lists the rejected records in order.
   */
  method LoadToStore<R>(rows: seq<R>, now: string, batchAccepted: bool, singleAccepted: seq<bool>)
    returns (report: Report<R>, writes: seq<Write<R>>)
    requires |singleAccepted| == |rows|
    ensures |rows| == 0 ==> report == Report(Skipped, 0, 0, None) && writes == []
    ensures |rows| > 0 ==> |writes| >= 1 && writes[0] == BatchInsert(Stamp(rows, now))
    ensures |rows| > 0 ==> forall i :: 0 <= i < |rows| ==>
      writes[0].records[i].row == rows[i] && writes[0].records[i].extractionTimestamp == now
    ensures |rows| > 0 && batchAccepted ==>
      report == Report(Success, |rows|, 0, None) && |writes| == 1
    ensures |rows| > 0 && !batchAccepted ==>
      && report.status == Partial
      && |writes| == |rows| + 1
      && (forall i :: 1 <= i < |writes| ==> writes[i] == SingleInsert(Record(rows[i - 1], now)))
      && report.loaded == CountAccepted(singleAccepted)
      && report.failedRecords == Some(Rejected(Stamp(rows, now), singleAccepted))
      && report.failed == |report.failedRecords.value|
      && report.loaded + report.failed == |rows|
  {
    if |rows| == 0 {
      return Report(Skipped, 0, 0, None), [];
    }
    var records := Stamp(rows, now);
    writes := [BatchInsert(records)];
    if batchAccepted {
      return Report(Success, |records|, 0, None), writes;
    }
    var successCount := 0;
    var failedRecords: seq<Record<R>> := [];
    var i := 0;
    while i < |records|
      invariant 0 <= i <= |records|
      invariant successCount == CountAccepted(singleAccepted[..i])
      invariant failedRecords == Rejected(records[..i], singleAccepted[..i])
      invariant |writes| == i + 1 && writes[0] == BatchInsert(records)
      invariant forall k :: 1 <= k < |writes| ==> writes[k] == SingleInsert(records[k - 1])
    {
      PrefixStep(records, i);
      PrefixStep(singleAccepted, i);
      writes := writes + [SingleInsert(records[i])];
      if singleAccepted[i] {
        successCount := successCount + 1;
      } else {
        failedRecords := failedRecords + [records[i]];
      }
      i := i + 1;
    }
    assert records[..i] == records;
    assert singleAccepted[..i] == singleAccepted;
    report := Report(Partial, successCount, |failedRecords|, Some(failedRecords));
  }

  /**
   * A fallback scenario: the batch is rejected and the second of three
   * individual inserts fails, so two are loaded and the second record is the
   * one failure.
   */
  lemma TwoOfThreeScenario<X>(a: X, b: X, c: X)
    ensures CountAccepted([true, false, true]) == 2
    ensures Rejected([a, b, c], [true, false, true]) == [b]
  {
  }
}
