/** backend/internal/usage/repository.go: an append-only list of usage
    records, queried per subscription over an inclusive time window. The
    record type is declared in backend/internal/usage/tracker.go. */
module UsageStore {
  import opened Common

  /** `timestamp` is in Unix seconds; the amounts are real numbers. */
  datatype UsageRecord = UsageRecord(id: string, subscriptionId: string, timestamp: int, serverCount: int,
                                     cpuHours: real, memoryGBHours: real, networkGB: real, storageGB: real)

  /** The subscription's records stamped within [start, end], in insertion
      order. Twin of BillingUsage.Selected, over this package's record type. */
  function Selected(records: seq<UsageRecord>, subscriptionId: string, start: int, end: int): seq<UsageRecord>
  {
    if records == [] then []
    else
      var last := records[|records| - 1];
      Selected(records[..|records| - 1], subscriptionId, start, end)
        + (if last.subscriptionId == subscriptionId && start <= last.timestamp <= end then [last] else [])
  }

  /** A record is selected iff it is stored, belongs to the subscription and
      lies in the window (both bounds included). Twin of
      BillingUsage.SelectedExactly. */
  lemma {:induction false} SelectedExactly(records: seq<UsageRecord>, subscriptionId: string, start: int, end: int)
    ensures forall r :: r in Selected(records, subscriptionId, start, end) <==>
      r in records && r.subscriptionId == subscriptionId && start <= r.timestamp <= end
  {
    if records != [] {
      var n := |records|;
      var last := records[n - 1];
      SelectedExactly(records[..n - 1], subscriptionId, start, end);
      assert records == records[..n - 1] + [last];
    }
  }

  /** The selection keeps the insertion order. Twin of
      BillingUsage.SelectedInOrder. */
  lemma {:induction false} SelectedInOrder(records: seq<UsageRecord>, subscriptionId: string, start: int, end: int)
    ensures Subsequence(Selected(records, subscriptionId, start, end), records)
  {
    if records != [] {
      var n := |records|;
      var prefix := Selected(records[..n - 1], subscriptionId, start, end);
      SelectedInOrder(records[..n - 1], subscriptionId, start, end);
      var s := Selected(records, subscriptionId, start, end);
      if s != prefix {
        assert s[|s| - 1] == records[n - 1] && s[..|s| - 1] == prefix;
      } else if s != [] {
        assert Subsequence(s, records[..n - 1]);
      }
    }
  }

  class InMemoryUsageRepository {
    var records: seq<UsageRecord>

    constructor ()
      ensures records == []
    {
      records := [];
    }

    /** Appends a copy of the record; it never fails. */
    method Save(record: UsageRecord) returns (r: Result<()>)
      modifies this
      ensures r.Ok? && records == old(records) + [record]
    {
      records := records + [record];
      r := Ok(());
    }

    /** The selection, or "no usage records found" when it is empty. */
    method GetForSubscription(subscriptionID: string, start: int, end: int) returns (r: Result<seq<UsageRecord>>)
      ensures var s := Selected(records, subscriptionID, start, end);
        if s == [] then r == Err("no usage records found") else r == Ok(s)
    {
      var results := [];
      for i := 0 to |records|
        invariant results == Selected(records[..i], subscriptionID, start, end)
      {
        assert records[..i + 1][..i] == records[..i];
        var record := records[i];
        if record.subscriptionId == subscriptionID && start <= record.timestamp && record.timestamp <= end {
          results := results + [record];
        }
      }
      assert records[..|records|] == records;
      if |results| == 0 {
        return Err("no usage records found");
      }
      r := Ok(results);
    }
  }
}
