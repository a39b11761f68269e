/** backend/internal/monitoring/metrics.go: an in-memory store of metric
    series, one per agent, with inclusive time-window queries, and the
    service that stores what a collector returns. The collector is external:
    its answer for the agent is a parameter. */
module Metrics {
  import opened Common
  import opened Monitoring

  /** The series after appending `ms` in order, each to its own agent's. */
  function StoreAll(series: map<string, seq<Metric>>, ms: seq<Metric>): map<string, seq<Metric>>
  {
    if ms == [] then series
    else
      var last := ms[|ms| - 1];
      var before := StoreAll(series, ms[..|ms| - 1]);
      before[last.agentId := Entries(before, last.agentId) + [last]]
  }

  /** The metrics of one agent, in order. */
  function OfAgent(ms: seq<Metric>, agentId: string): seq<Metric>
  {
    if ms == [] then []
    else
      var last := ms[|ms| - 1];
      OfAgent(ms[..|ms| - 1], agentId) + (if last.agentId == agentId then [last] else [])
  }

  /** Storing appends to each agent's series exactly that agent's metrics,
      in input order. */
  lemma {:induction false} StoreAllAppends(series: map<string, seq<Metric>>, ms: seq<Metric>, agentId: string)
    ensures Entries(StoreAll(series, ms), agentId) == Entries(series, agentId) + OfAgent(ms, agentId)
  {
    if ms != [] {
      var n := |ms|;
      var last := ms[n - 1];
      StoreAllAppends(series, ms[..n - 1], agentId);
      if last.agentId == agentId {
        assert Entries(series, agentId) + OfAgent(ms[..n - 1], agentId) + [last]
          == Entries(series, agentId) + (OfAgent(ms[..n - 1], agentId) + [last]);
      } else {
        assert OfAgent(ms[..n - 1], agentId) + [] == OfAgent(ms[..n - 1], agentId);
      }
    }
  }

  /** An agent gets a series iff it had one or appears in the input. */
  lemma {:induction false} StoreAllKeys(series: map<string, seq<Metric>>, ms: seq<Metric>, agentId: string)
    ensures agentId in StoreAll(series, ms) <==> agentId in series || exists j :: 0 <= j < |ms| && ms[j].agentId == agentId
  {
    if ms != [] {
      var n := |ms|;
      var init := ms[..n - 1];
      StoreAllKeys(series, init, agentId);
      if ms[n - 1].agentId != agentId && exists j :: 0 <= j < n && ms[j].agentId == agentId {
        var j :| 0 <= j < n && ms[j].agentId == agentId;
        assert init[j] == ms[j];
      }
      if exists j :: 0 <= j < |init| && init[j].agentId == agentId {
        var j :| 0 <= j < |init| && init[j].agentId == agentId;
        assert init[j] == ms[j];
      }
    }
  }

  /** The metrics stamped within [start, end], both bounds included, in order. */
  function InWindow(ms: seq<Metric>, start: int, end: int): seq<Metric>
  {
    if ms == [] then []
    else
      var last := ms[|ms| - 1];
      InWindow(ms[..|ms| - 1], start, end) + (if start <= last.timestamp <= end then [last] else [])
  }

  /** The window holds exactly the metrics of the series stamped within it. */
  lemma {:induction false} InWindowExactly(ms: seq<Metric>, start: int, end: int)
    ensures forall m :: m in InWindow(ms, start, end) <==> m in ms && start <= m.timestamp <= end
  {
    if ms != [] {
      var n := |ms|;
      InWindowExactly(ms[..n - 1], start, end);
      assert ms == ms[..n - 1] + [ms[n - 1]];
    }
  }

  /** The window keeps the series' order: it is a subsequence of it. */
  lemma {:induction false} InWindowSubsequence(ms: seq<Metric>, start: int, end: int)
    ensures Subsequence(InWindow(ms, start, end), ms)
  {
    if ms != [] {
      var n := |ms|;
      var prefix := InWindow(ms[..n - 1], start, end);
      InWindowSubsequence(ms[..n - 1], start, end);
      var w := InWindow(ms, start, end);
      if start <= ms[n - 1].timestamp <= end {
        assert w == prefix + [ms[n - 1]];
        assert w[|w| - 1] == ms[n - 1] && w[..|w| - 1] == prefix;
      } else {
        assert w == prefix;
        if w != [] {
          assert Subsequence(w, ms[..n - 1]);
        }
      }
    }
  }

  class InMemoryMetricsStorage {
    var metrics: map<string, seq<Metric>>

    constructor ()
      ensures metrics == map[]
    {
      metrics := map[];
    }

    /** Appends each metric to its agent's series, in input order; it never
        fails. */
    method Store(ms: seq<Metric>) returns (r: Result<()>)
      modifies this
      ensures r.Ok?
      ensures metrics == StoreAll(old(metrics), ms)
    {
      for i := 0 to |ms|
        invariant metrics == StoreAll(old(metrics), ms[..i])
      {
        assert ms[..i + 1][..i] == ms[..i];
        var m := ms[i];
        metrics := metrics[m.agentId := Entries(metrics, m.agentId) + [m]];
      }
      assert ms[..|ms|] == ms;
      r := Ok(());
    }

    /** The agent's metrics stamped within [start, end]; an agent with no
        series is an error. */
    method Query(agentID: string, start: int, end: int) returns (r: Result<seq<Metric>>)
      ensures agentID !in metrics ==> r == Err("no metrics found for agent " + agentID)
      ensures agentID in metrics ==> r == Ok(InWindow(metrics[agentID], start, end))
    {
      if agentID !in metrics {
        return Err("no metrics found for agent " + agentID);
      }
      var series := metrics[agentID];
      var result := [];
      for i := 0 to |series|
        invariant result == InWindow(series[..i], start, end)
      {
        assert series[..i + 1][..i] == series[..i];
        var m := series[i];
        if start <= m.timestamp && m.timestamp <= end {
          result := result + [m];
        }
      }
      assert series[..|series|] == series;
      r := Ok(result);
    }
  }

  class MetricsService {
    const storage: InMemoryMetricsStorage

    constructor (storage: InMemoryMetricsStorage)
      ensures this.storage == storage
    {
      this.storage := storage;
    }

    /** Stores what the collector returned for the agent; a collector error
        is returned as is and nothing is stored. */
    method CollectAndStore(agentID: string, collected: Result<seq<Metric>>) returns (r: Result<()>)
      modifies storage
      ensures collected.Err? ==> r == Err(collected.msg) && storage.metrics == old(storage.metrics)
      ensures collected.Ok? ==> r.Ok? && storage.metrics == StoreAll(old(storage.metrics), collected.value)
    {
      if collected.Err? {
        return Err(collected.msg);
      }
      r := storage.Store(collected.value);
    }

    method QueryMetrics(agentID: string, start: int, end: int) returns (r: Result<seq<Metric>>)
      ensures agentID !in storage.metrics ==> r == Err("no metrics found for agent " + agentID)
      ensures agentID in storage.metrics ==> r == Ok(InWindow(storage.metrics[agentID], start, end))
    {
      r := storage.Query(agentID, start, end);
    }
  }
}
