/** backend/internal/billing/usage.go: the billing package's own usage log,
    an append-only list of records that carry the plan in force, and its
    per-subscription summary over an inclusive window. */
module BillingUsage {
  import opened Common

  /** `timestamp` is in Unix seconds; the amounts are real numbers. */
  datatype UsageRecord = UsageRecord(id: string, subscriptionId: string, planId: string, timestamp: int,
                                     serverCount: int, cpuHours: real, memoryGBHours: real,
                                     networkGB: real, storageGB: real)

  /** The summary of a window. The Go struct has no plan field although
      Aggregate assigns one; the model gives it the field Aggregate fills. */
  datatype UsageSummary = UsageSummary(subscriptionId: string, startDate: int, endDate: int, planId: string,
                                       serverCount: int, cpuHours: real, memoryGBHours: real,
                                       networkGB: real, storageGB: real)

  /** The subscription's records stamped within [start, end], in insertion
      order. Twin of UsageStore.Selected: the billing package repeats the
      query over its own record type. */
  function Selected(records: seq<UsageRecord>, subscriptionId: string, start: int, end: int): seq<UsageRecord>
  {
    if records == [] then []
    else
      var last := records[|records| - 1];
      Selected(records[..|records| - 1], subscriptionId, start, end)
        + (if last.subscriptionId == subscriptionId && start <= last.timestamp <= end then [last] else [])
  }

  /** A record is selected iff it is stored, belongs to the subscription and
      lies in the window, both bounds included. Twin of
      UsageStore.SelectedExactly. */
  lemma {:induction false} SelectedExactly(records: seq<UsageRecord>, subscriptionId: string, start: int, end: int)
    ensures forall r :: r in Selected(records, subscriptionId, start, end) <==>
      r in records && r.subscriptionId == subscriptionId && start <= r.timestamp <= end
  {
    if records != [] {
      var n := |records|;
      var last := records[n - 1];
      SelectedExactly(records[..n - 1], subscriptionId, start, end);
      assert records == records[..n - 1] + [last];
    }
  }

  /** The selection keeps the insertion order. Twin of
      UsageStore.SelectedInOrder. */
  lemma {:induction false} SelectedInOrder(records: seq<UsageRecord>, subscriptionId: string, start: int, end: int)
    ensures Subsequence(Selected(records, subscriptionId, start, end), records)
  {
    if records != [] {
      var n := |records|;
      var prefix := Selected(records[..n - 1], subscriptionId, start, end);
      SelectedInOrder(records[..n - 1], subscriptionId, start, end);
      var s := Selected(records, subscriptionId, start, end);
      if s != prefix {
        assert s[|s| - 1] == records[n - 1] && s[..|s| - 1] == prefix;
      } else if s != [] {
        assert Subsequence(s, records[..n - 1]);
      }
    }
  }

  /** The sums of the four amounts over the records. */
  function CpuTotal(records: seq<UsageRecord>): real
  {
    if records == [] then 0.0 else CpuTotal(records[..|records| - 1]) + records[|records| - 1].cpuHours
  }

  function MemoryTotal(records: seq<UsageRecord>): real
  {
    if records == [] then 0.0 else MemoryTotal(records[..|records| - 1]) + records[|records| - 1].memoryGBHours
  }

  function NetworkTotal(records: seq<UsageRecord>): real
  {
    if records == [] then 0.0 else NetworkTotal(records[..|records| - 1]) + records[|records| - 1].networkGB
  }

  function StorageTotal(records: seq<UsageRecord>): real
  {
    if records == [] then 0.0 else StorageTotal(records[..|records| - 1]) + records[|records| - 1].storageGB
  }

  /** The largest server count of the records, or 0 when there is none or
      all are negative. Twin of UsageTracker.MaxServers. */
  function MaxServers(records: seq<UsageRecord>): (m: int)
    ensures m >= 0
    ensures forall r :: r in records ==> r.serverCount <= m
    ensures m == 0 || exists r :: r in records && r.serverCount == m
  {
    if records == [] then 0
    else
      var rest := MaxServers(records[..|records| - 1]);
      var last := records[|records| - 1];
      assert records == records[..|records| - 1] + [last];
      if last.serverCount > rest then last.serverCount else rest
  }

  /** The summary Aggregate returns for a selection: only the subscription
      and the window when it is empty; otherwise also the plan of the last
      record, the sums, and the largest server count floored at 0. */
  function Summary(subscriptionId: string, start: int, end: int, records: seq<UsageRecord>): (s: UsageSummary)
    ensures s.subscriptionId == subscriptionId && s.startDate == start && s.endDate == end
    ensures s.serverCount >= 0
    ensures records == [] ==> s.planId == "" && s.serverCount == 0
    ensures records != [] ==> s.planId == records[|records| - 1].planId
    ensures forall r :: r in records ==> r.serverCount <= s.serverCount
    ensures s.serverCount == 0 || exists r :: r in records && r.serverCount == s.serverCount
  {
    if records == [] then UsageSummary(subscriptionId, start, end, "", 0, 0.0, 0.0, 0.0, 0.0)
    else UsageSummary(subscriptionId, start, end, records[|records| - 1].planId, MaxServers(records),
                      CpuTotal(records), MemoryTotal(records), NetworkTotal(records), StorageTotal(records))
  }

  /** Saving a record that falls in the window makes it the last of the
      selection: the summary then names its plan, adds its amounts to the
      totals and raises the server count to its own if that is larger. */
  lemma SaveThenSummary(records: seq<UsageRecord>, rec: UsageRecord, start: int, end: int)
    requires start <= rec.timestamp <= end
    ensures var before := Summary(rec.subscriptionId, start, end, Selected(records, rec.subscriptionId, start, end));
      var after := Summary(rec.subscriptionId, start, end, Selected(records + [rec], rec.subscriptionId, start, end));
      && after.planId == rec.planId
      && after.cpuHours == before.cpuHours + rec.cpuHours
      && after.memoryGBHours == before.memoryGBHours + rec.memoryGBHours
      && after.networkGB == before.networkGB + rec.networkGB
      && after.storageGB == before.storageGB + rec.storageGB
      && after.serverCount == (if rec.serverCount > before.serverCount then rec.serverCount else before.serverCount)
  {
    var id := rec.subscriptionId;
    var all := records + [rec];
    assert all[..|all| - 1] == records;
    var s := Selected(records, id, start, end);
    var s' := s + [rec];
    assert Selected(all, id, start, end) == s';
    assert s'[..|s'| - 1] == s;
    assert CpuTotal(s') == CpuTotal(s) + rec.cpuHours;
    assert MemoryTotal(s') == MemoryTotal(s) + rec.memoryGBHours;
    assert NetworkTotal(s') == NetworkTotal(s) + rec.networkGB;
    assert StorageTotal(s') == StorageTotal(s) + rec.storageGB;
  }

  /** Saving a record of another subscription, or one outside the window,
      leaves the summary as it was. */
  lemma SaveElsewhereKeepsSummary(records: seq<UsageRecord>, rec: UsageRecord, subscriptionId: string, start: int, end: int)
    requires rec.subscriptionId != subscriptionId || rec.timestamp < start || end < rec.timestamp
    ensures Summary(subscriptionId, start, end, Selected(records + [rec], subscriptionId, start, end))
         == Summary(subscriptionId, start, end, Selected(records, subscriptionId, start, end))
  {
    var all := records + [rec];
    assert all[..|all| - 1] == records;
    assert Selected(all, subscriptionId, start, end) == Selected(records, subscriptionId, start, end);
  }

  /** The server counts that occur in the records. */
  function ServerCounts(records: seq<UsageRecord>): set<int>
  {
    set r | r in records :: r.serverCount
  }

  /** The aggregation loop of Aggregate over a non-empty selection: adds up
      the amounts, collects the server counts in a set, and takes the
      largest of them. */
  method Summarize(subscriptionID: string, start: int, end: int, records: seq<UsageRecord>)
    returns (summary: UsageSummary)
    requires records != []
    ensures summary == Summary(subscriptionID, start, end, records)
  {
    summary := UsageSummary(subscriptionID, start, end, records[|records| - 1].planId, 0, 0.0, 0.0, 0.0, 0.0);
    var serverCounts: set<int> := {};
    for i := 0 to |records|
      invariant summary == UsageSummary(subscriptionID, start, end, records[|records| - 1].planId, 0,
        CpuTotal(records[..i]), MemoryTotal(records[..i]), NetworkTotal(records[..i]), StorageTotal(records[..i]))
      invariant serverCounts == ServerCounts(records[..i])
    {
      var record := records[i];
      assert records[..i + 1][..i] == records[..i];
      assert records[..i + 1] == records[..i] + [record];
      summary := summary.(cpuHours := summary.cpuHours + record.cpuHours,
                          memoryGBHours := summary.memoryGBHours + record.memoryGBHours,
                          networkGB := summary.networkGB + record.networkGB,
                          storageGB := summary.storageGB + record.storageGB);
      serverCounts := serverCounts + {record.serverCount};
    }
    assert records[..|records|] == records;
    var maxServers := MaxOrZero(serverCounts);
    var expected := MaxServers(records);
    if expected != 0 {
      var w :| w in records && w.serverCount == expected;
      assert expected in serverCounts;
    }
    assert maxServers <= expected && expected <= maxServers;
    summary := summary.(serverCount := maxServers);
  }

  class BillingUsageRepository {
    var records: seq<UsageRecord>

    constructor ()
      ensures records == []
    {
      records := [];
    }

    /** Appends a copy of the record; it never fails. */
    method Save(record: UsageRecord) returns (r: Result<()>)
      modifies this
      ensures r.Ok? && records == old(records) + [record]
    {
      records := records + [record];
      r := Ok(());
    }

    /** The selection; unlike the usage package's repository it never fails
        and answers an empty list when nothing matches. */
    method GetForSubscription(subscriptionID: string, start: int, end: int) returns (r: Result<seq<UsageRecord>>)
      ensures r == Ok(Selected(records, subscriptionID, start, end))
    {
      var results := [];
      for i := 0 to |records|
        invariant results == Selected(records[..i], subscriptionID, start, end)
      {
        assert records[..i + 1][..i] == records[..i];
        var record := records[i];
        if record.subscriptionId == subscriptionID && start <= record.timestamp && record.timestamp <= end {
          results := results + [record];
        }
      }
      assert records[..|records|] == records;
      r := Ok(results);
    }

    /** The summary of the selection. */
    method Aggregate(subscriptionID: string, start: int, end: int) returns (r: Result<UsageSummary>)
      ensures r == Ok(Summary(subscriptionID, start, end, Selected(records, subscriptionID, start, end)))
    {
      // GetForSubscription never fails, so the error check of the Go code
      // has nothing to pass on.
      var selected := GetForSubscription(subscriptionID, start, end);
      var records := selected.value;
      if |records| == 0 {
        return Ok(UsageSummary(subscriptionID, start, end, "", 0, 0.0, 0.0, 0.0, 0.0));
      }
      var summary := Summarize(subscriptionID, start, end, records);
      r := Ok(summary);
    }
  }
}
