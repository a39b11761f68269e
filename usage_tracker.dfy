/** backend/internal/usage/tracker.go: recording usage and summarising it
    over a window or a named period. The clock is a parameter; so are the
    calendar shifts of `now` that name a period's start (`Shifts`). */
module UsageTracker {
  import opened Common
  import opened UsageStore

  /** Which amount of a record to add up. */
  datatype Amount = CpuHours | MemoryGBHours | NetworkGB | StorageGB

  function AmountOf(r: UsageRecord, a: Amount): real
  {
    match a
    case CpuHours => r.cpuHours
    case MemoryGBHours => r.memoryGBHours
    case NetworkGB => r.networkGB
    case StorageGB => r.storageGB
  }

  /** The sum of one amount over the records. */
  function Total(records: seq<UsageRecord>, a: Amount): real
  {
    if records == [] then 0.0
    else Total(records[..|records| - 1], a) + AmountOf(records[|records| - 1], a)
  }

  /** The largest server count of the records, or 0 when there is none or
      all are negative. Twin of BillingUsage.MaxServers, over this package's
      record type. */
  function MaxServers(records: seq<UsageRecord>): (m: int)
    ensures m >= 0
    ensures forall r :: r in records ==> r.serverCount <= m
    ensures m == 0 || exists r :: r in records && r.serverCount == m
  {
    if records == [] then 0
    else
      var rest := MaxServers(records[..|records| - 1]);
      var last := records[|records| - 1];
      assert records == records[..|records| - 1] + [last];
      if last.serverCount > rest then last.serverCount else rest
  }

  /** The server counts that occur in the records. */
  function ServerCounts(records: seq<UsageRecord>): set<int>
  {
    set r | r in records :: r.serverCount
  }

  /** Total is additive over concatenation. */
  lemma {:induction false} TotalAppend(a: seq<UsageRecord>, b: seq<UsageRecord>, amount: Amount)
    ensures Total(a + b, amount) == Total(a, amount) + Total(b, amount)
    decreases |b|
  {
    if b == [] {
      assert a + b == a;
    } else {
      assert (a + b)[..|a + b| - 1] == a + b[..|b| - 1];
      TotalAppend(a, b[..|b| - 1], amount);
    }
  }

  /** `now` shifted back by one calendar day, seven calendar days and one
      calendar month in local time (`AddDate(0, 0, -1)`, `AddDate(0, 0, -7)`,
      `AddDate(0, -1, 0)`). Across a daylight-saving change a calendar day is
      not 86400 seconds, so the shifts are given, not computed. */
  datatype Shifts = Shifts(dayAgo: int, weekAgo: int, monthAgo: int)

  /** The period names and their windows: the last day, the last seven days
      and the last calendar month, each ending at `now`. Anything else is
      "invalid period". */
  function PeriodWindow(period: string, now: int, back: Shifts): (r: Result<(int, int)>)
    ensures r.Ok? <==> period in {"day", "week", "month"}
    ensures r.Ok? ==> r.value.1 == now
    ensures period == "day" ==> r == Ok((back.dayAgo, now))
    ensures period == "week" ==> r == Ok((back.weekAgo, now))
    ensures period == "month" ==> r == Ok((back.monthAgo, now))
    ensures r.Err? ==> r.msg == "invalid period"
  {
    match period
    case "day" => Ok((back.dayAgo, now))
    case "week" => Ok((back.weekAgo, now))
    case "month" => Ok((back.monthAgo, now))
    case _ => Err("invalid period")
  }

  class UsageTracker {
    const repo: InMemoryUsageRepository

    constructor (repo: InMemoryUsageRepository)
      ensures this.repo == repo
    {
      this.repo := repo;
    }

    /** Stamps the record with the constant id and `now`, then saves it;
        the stamped record is what the caller's record becomes. */
    method RecordUsage(record: UsageRecord, now: int) returns (r: Result<()>, stamped: UsageRecord)
      modifies repo
      ensures stamped == record.(id := GeneratedUuid, timestamp := now)
      ensures r.Ok? && repo.records == old(repo.records) + [stamped]
    {
      stamped := record.(id := GeneratedUuid, timestamp := now);
      r := repo.Save(stamped);
    }

    /** The selection's summary; a repository error is passed on as is. */
    method GetUsage(subscriptionID: string, start: int, end: int) returns (r: Result<UsageRecord>)
      ensures var s := Selected(repo.records, subscriptionID, start, end);
        && (s == [] ==> r == Err("no usage records found"))
        && (s != [] ==> r == Ok(Summary(subscriptionID, s)))
    {
      var records := repo.GetForSubscription(subscriptionID, start, end);
      if records.Err? {
        return Err(records.msg);
      }
      var summary := Summarize(subscriptionID, records.value);
      r := Ok(summary);
    }

    /** The records of the subscription in the named period. */
    method AggregateUsage(subscriptionID: string, period: string, now: int, back: Shifts)
      returns (r: Result<seq<UsageRecord>>)
      ensures PeriodWindow(period, now, back).Err? ==> r == Err("invalid period")
      ensures PeriodWindow(period, now, back).Ok? ==>
        var (start, end) := PeriodWindow(period, now, back).value;
        var s := Selected(repo.records, subscriptionID, start, end);
        if s == [] then r == Err("no usage records found") else r == Ok(s)
    {
      var start, end;
      if period == "day" {
        start, end := back.dayAgo, now;
      } else if period == "week" {
        start, end := back.weekAgo, now;
      } else if period == "month" {
        start, end := back.monthAgo, now;
      } else {
        return Err("invalid period");
      }
      r := repo.GetForSubscription(subscriptionID, start, end);
    }
  }

  /** The summary of a list of records: only the subscription id when the
      list is empty; otherwise the sums of the four amounts and the largest
      server count, floored at 0, with an empty id and time. */
  function Summary(subscriptionID: string, records: seq<UsageRecord>): UsageRecord
  {
    if records == [] then UsageRecord("", subscriptionID, ZeroTime, 0, 0.0, 0.0, 0.0, 0.0)
    else UsageRecord("", subscriptionID, ZeroTime, MaxServers(records),
                     Total(records, CpuHours), Total(records, MemoryGBHours),
                     Total(records, NetworkGB), Total(records, StorageGB))
  }

  /** The aggregation loop of GetUsage: adds up the amounts, collects the
      server counts in a set, and takes the largest of them. */
  method Summarize(subscriptionID: string, records: seq<UsageRecord>) returns (summary: UsageRecord)
    ensures summary == Summary(subscriptionID, records)
  {
    if |records| == 0 {
      return UsageRecord("", subscriptionID, ZeroTime, 0, 0.0, 0.0, 0.0, 0.0);
    }
    summary := UsageRecord("", subscriptionID, ZeroTime, 0, 0.0, 0.0, 0.0, 0.0);
    var serverCounts: set<int> := {};
    for i := 0 to |records|
      invariant summary == UsageRecord("", subscriptionID, ZeroTime, 0,
        Total(records[..i], CpuHours), Total(records[..i], MemoryGBHours),
        Total(records[..i], NetworkGB), Total(records[..i], StorageGB))
      invariant serverCounts == ServerCounts(records[..i])
    {
      var record := records[i];
      assert records[..i + 1][..i] == records[..i];
      assert records[..i + 1] == records[..i] + [record];
      summary := summary.(cpuHours := summary.cpuHours + record.cpuHours,
                          memoryGBHours := summary.memoryGBHours + record.memoryGBHours,
                          networkGB := summary.networkGB + record.networkGB,
                          storageGB := summary.storageGB + record.storageGB);
      serverCounts := serverCounts + {record.serverCount};
    }
    assert records[..|records|] == records;
    var maxServers := MaxOrZero(serverCounts);
    var expected := MaxServers(records);
    if expected != 0 {
      var r :| r in records && r.serverCount == expected;
      assert expected in serverCounts;
    }
    assert maxServers <= expected && expected <= maxServers;
    summary := summary.(serverCount := maxServers);
  }
}
