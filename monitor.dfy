/** backend/internal/monitoring/monitor.go: per-agent polling. Each agent is
    either idle or polled (it has a cancel function); each tick of a polled
    agent records five metrics and raises an alert for every metric above
    the agent's threshold for it. The ticker goroutine and its cancellation
    are not modelled: a tick is a method the caller invokes, given the
    agent registry, the stats the agent reported (or the error) and the
    time. Metric values are real numbers. */
module Monitoring {
  import opened Common
  import AgentManager
  import Agents
  import JobQueue

  /** One sample. The monitor leaves `agentId` empty; the metrics storage
      files samples by it. */
  datatype Metric = Metric(agentId: string, name: string, value: real, timestamp: int)

  /** `status` is "active" or "resolved". The human-readable message, built
      with float formatting, is not modelled. */
  datatype Alert = Alert(id: string, agentId: string, metric: string, value: real,
                         threshold: real, timestamp: int, status: string)

  const Active: string := "active"
  const Resolved: string := "resolved"

  /** The system part of what an agent reports (agent/stats.go). */
  datatype SystemStats = SystemStats(cpuUsage: real, memoryUsage: real, diskUsage: real,
                                     networkIn: real, networkOut: real)

  /** The metric names of one tick, in the order they are recorded. */
  const MetricNames: seq<string> := ["cpu", "memory", "disk", "network_in", "network_out"]

  /** The five metrics a tick records, all stamped `now`. */
  function TickMetrics(stats: SystemStats, now: int): (ms: seq<Metric>)
    ensures |ms| == |MetricNames| == 5
    ensures forall j :: 0 <= j < 5 ==> ms[j].name == MetricNames[j] && ms[j].timestamp == now && ms[j].agentId == ""
  {
    [Metric("", "cpu", stats.cpuUsage, now), Metric("", "memory", stats.memoryUsage, now),
     Metric("", "disk", stats.diskUsage, now), Metric("", "network_in", stats.networkIn, now),
     Metric("", "network_out", stats.networkOut, now)]
  }

  /** `fmt.Sprintf("%s-%s-%d", agentID, metric, now)`. */
  function AlertId(agentId: string, metric: string, now: int): string
  {
    StampedId(agentId + "-", metric, now)
  }

  /** Within one second, alerts for different metrics of one agent get
      different ids; the same metric in the same second gets the same id. */
  lemma AlertIdsOfOneSecond(agentId: string, m1: string, m2: string, now: int)
    ensures AlertId(agentId, m1, now) == AlertId(agentId, m2, now) <==> m1 == m2
  {
    StampedIdSameSecond(agentId + "-", m1, m2, now);
  }

  /** The agent's thresholds, or none. */
  function LimitsOf(thresholds: map<string, map<string, real>>, agentId: string): map<string, real>
  {
    if agentId in thresholds then thresholds[agentId] else map[]
  }

  /** Whether a metric is strictly above its threshold. */
  predicate Breach(m: Metric, limits: map<string, real>)
  {
    m.name in limits && m.value > limits[m.name]
  }

  /** The alert a tick raises for a metric above `threshold`. */
  function AlertFor(agentId: string, m: Metric, threshold: real, now: int): Alert
  {
    Alert(AlertId(agentId, m.name, now), agentId, m.name, m.value, threshold, now, Active)
  }

  /** The alerts one tick raises, in metric order. */
  function Breaches(agentId: string, ms: seq<Metric>, limits: map<string, real>, now: int): seq<Alert>
  {
    if ms == [] then []
    else
      var last := ms[|ms| - 1];
      Breaches(agentId, ms[..|ms| - 1], limits, now)
        + (if Breach(last, limits) then [AlertFor(agentId, last, limits[last.name], now)] else [])
  }

  /** One more metric: its alert, if it raises one, comes after those of
      the metrics before it. */
  lemma BreachesStep(agentId: string, ms: seq<Metric>, i: int, limits: map<string, real>, now: int)
    requires 0 <= i < |ms|
    ensures Breaches(agentId, ms[..i + 1], limits, now) ==
      Breaches(agentId, ms[..i], limits, now)
        + (if Breach(ms[i], limits) then [AlertFor(agentId, ms[i], limits[ms[i].name], now)] else [])
  {
    assert ms[..i + 1][..i] == ms[..i];
  }

  /** Every alert comes from a metric strictly above its threshold. */
  lemma {:induction false} BreachesSound(agentId: string, ms: seq<Metric>, limits: map<string, real>, now: int)
    ensures forall a :: a in Breaches(agentId, ms, limits, now) ==>
      exists j :: 0 <= j < |ms| && Breach(ms[j], limits) && a == AlertFor(agentId, ms[j], limits[ms[j].name], now)
  {
    if ms != [] {
      var n := |ms|;
      var init := ms[..n - 1];
      BreachesSound(agentId, init, limits, now);
      forall a | a in Breaches(agentId, ms, limits, now)
        ensures exists j :: 0 <= j < n && Breach(ms[j], limits) && a == AlertFor(agentId, ms[j], limits[ms[j].name], now)
      {
        if a in Breaches(agentId, init, limits, now) {
          var j :| 0 <= j < n - 1 && Breach(init[j], limits)
            && a == AlertFor(agentId, init[j], limits[init[j].name], now);
          assert init[j] == ms[j];
        } else {
          assert Breach(ms[n - 1], limits) && a == AlertFor(agentId, ms[n - 1], limits[ms[n - 1].name], now);
        }
      }
    }
  }

  /** Every metric strictly above its threshold raises its alert. */
  lemma {:induction false} BreachesComplete(agentId: string, ms: seq<Metric>, limits: map<string, real>, now: int)
    ensures forall j :: 0 <= j < |ms| && Breach(ms[j], limits) ==>
      AlertFor(agentId, ms[j], limits[ms[j].name], now) in Breaches(agentId, ms, limits, now)
  {
    if ms != [] {
      var n := |ms|;
      var init := ms[..n - 1];
      BreachesComplete(agentId, init, limits, now);
      forall j | 0 <= j < n - 1 && Breach(ms[j], limits)
        ensures AlertFor(agentId, ms[j], limits[ms[j].name], now) in Breaches(agentId, ms, limits, now)
      {
        assert init[j] == ms[j];
      }
    }
  }

  /** Every alert a tick raises carries the agent, status "active", the
      tick's time, the metric's threshold and a value strictly above it,
      and the id `<agent>-<metric>-<unix seconds>`. */
  lemma BreachesCarry(agentId: string, ms: seq<Metric>, limits: map<string, real>, now: int)
    ensures forall a :: a in Breaches(agentId, ms, limits, now) ==>
      && a.agentId == agentId && a.status == Active && a.timestamp == now
      && a.metric in limits && a.threshold == limits[a.metric] && a.value > a.threshold
      && a.id == AlertId(agentId, a.metric, now)
  {
    BreachesSound(agentId, ms, limits, now);
  }

  /** Without thresholds a tick raises nothing. */
  lemma {:induction false} NoThresholdsNoAlerts(agentId: string, ms: seq<Metric>, now: int)
    ensures Breaches(agentId, ms, map[], now) == []
  {
    if ms != [] {
      NoThresholdsNoAlerts(agentId, ms[..|ms| - 1], now);
    }
  }

  /** The five metric names differ (their lengths do). */
  lemma MetricNamesDistinct(j: int, k: int)
    requires 0 <= j < 5 && 0 <= k < 5 && MetricNames[j] == MetricNames[k]
    ensures j == k
  {
    assert |MetricNames[j]| == |MetricNames[k]|;
  }

  /** For one tick: an alert for a metric is raised iff the agent has a
      threshold for that metric and the value is strictly above it (a value
      equal to the threshold raises none). */
  lemma TickAlertIffBreach(agentId: string, stats: SystemStats, limits: map<string, real>, now: int, j: int)
    requires 0 <= j < 5
    ensures var ms := TickMetrics(stats, now);
      (exists a :: a in Breaches(agentId, ms, limits, now) && a.metric == MetricNames[j])
      <==> MetricNames[j] in limits && ms[j].value > limits[MetricNames[j]]
  {
    var ms := TickMetrics(stats, now);
    if Breach(ms[j], limits) {
      BreachesComplete(agentId, ms, limits, now);
      assert AlertFor(agentId, ms[j], limits[ms[j].name], now) in Breaches(agentId, ms, limits, now);
    }
    if a :| a in Breaches(agentId, ms, limits, now) && a.metric == MetricNames[j] {
      BreachesSound(agentId, ms, limits, now);
      var k :| 0 <= k < 5 && Breach(ms[k], limits) && a == AlertFor(agentId, ms[k], limits[ms[k].name], now);
      MetricNamesDistinct(j, k);
    }
  }

  /** Appending to an agent's entry whose creation waits for the first
      element: after `before` and then `x`, the entry is the old one
      followed by both. */
  lemma AppendEntry<T>(start: map<string, seq<T>>, cur: map<string, seq<T>>, k: string, before: seq<T>, x: T)
    requires cur == if before == [] then start else start[k := Entries(start, k) + before]
    ensures cur[k := Entries(cur, k) + [x]] == start[k := Entries(start, k) + (before + [x])]
  {
    if before == [] {
      assert before + [x] == [x];
    } else {
      assert Entries(start, k) + before + [x] == Entries(start, k) + (before + [x]);
    }
  }

  class Monitor {
    /** agent id -> recorded metrics, oldest first. */
    var metrics: map<string, seq<Metric>>
    /** agent id -> raised alerts, oldest first. */
    var alerts: map<string, seq<Alert>>
    /** agent id -> metric name -> threshold. */
    var thresholds: map<string, map<string, real>>
    /** The agents that have a cancel function, i.e. are being polled. */
    var polling: set<string>

    constructor ()
      ensures metrics == map[] && alerts == map[] && thresholds == map[] && polling == {}
    {
      metrics := map[];
      alerts := map[];
      thresholds := map[];
      polling := {};
    }

    /** Idle -> polled. An agent already polled is an error and stays as it
        is. The polling interval only matters to the ticker. */
    method StartMonitoring(agentID: string, interval: int) returns (r: Result<()>)
      modifies this
      ensures agentID in old(polling) ==> r == Err("monitoring already started for agent " + agentID)
      ensures agentID !in old(polling) ==> r == Ok(())
      ensures polling == old(polling) + {agentID}
      ensures metrics == old(metrics) && alerts == old(alerts) && thresholds == old(thresholds)
    {
      if agentID in polling {
        return Err("monitoring already started for agent " + agentID);
      }
      polling := polling + {agentID};
      r := Ok(());
    }

    /** Polled -> idle. An idle agent is an error. */
    method StopMonitoring(agentID: string) returns (r: Result<()>)
      modifies this
      ensures agentID !in old(polling) ==> r == Err("no monitoring active for agent " + agentID)
      ensures agentID in old(polling) ==> r == Ok(())
      ensures polling == old(polling) - {agentID}
      ensures metrics == old(metrics) && alerts == old(alerts) && thresholds == old(thresholds)
    {
      if agentID !in polling {
        return Err("no monitoring active for agent " + agentID);
      }
      polling := polling - {agentID};
      r := Ok(());
    }

    /** One tick of the polling loop. An agent missing from the registry or
        whose stats collection failed is skipped. Otherwise the five metrics
        are appended to the agent's series, and the alerts for the metrics
        above their thresholds are appended to its alerts; the alert entry is
        created only when there is at least one. */
    method Tick(agentID: string, registry: AgentManager.Manager, collected: Result<SystemStats>, now: int)
      modifies this
      ensures polling == old(polling) && thresholds == old(thresholds)
      ensures agentID !in registry.agents || collected.Err? ==> metrics == old(metrics) && alerts == old(alerts)
      ensures agentID in registry.agents && collected.Ok? ==>
        var ms := TickMetrics(collected.value, now);
        var raised := Breaches(agentID, ms, LimitsOf(thresholds, agentID), now);
        && metrics == old(metrics)[agentID := Entries(old(metrics), agentID) + ms]
        && alerts == (if raised == [] then old(alerts) else old(alerts)[agentID := Entries(old(alerts), agentID) + raised])
    {
      var found := registry.GetAgent(agentID);
      if found.None? || collected.Err? {
        return;
      }
      var ms := TickMetrics(collected.value, now);
      metrics := metrics[agentID := Entries(metrics, agentID) + ms];
      var i := 0;
      while i < |ms|
        invariant 0 <= i <= |ms|
        invariant polling == old(polling) && thresholds == old(thresholds)
        invariant metrics == old(metrics)[agentID := Entries(old(metrics), agentID) + ms]
        invariant var raised := Breaches(agentID, ms[..i], LimitsOf(thresholds, agentID), now);
          alerts == (if raised == [] then old(alerts) else old(alerts)[agentID := Entries(old(alerts), agentID) + raised])
      {
        var metric := ms[i];
        BreachesStep(agentID, ms, i, LimitsOf(thresholds, agentID), now);
        ghost var before := Breaches(agentID, ms[..i], LimitsOf(thresholds, agentID), now);
        if !Breach(metric, LimitsOf(thresholds, agentID)) {
          assert Breaches(agentID, ms[..i + 1], LimitsOf(thresholds, agentID), now) == before + [] == before;
        }
        if agentID in thresholds {
          var limits := thresholds[agentID];
          if metric.name in limits {
            var threshold := limits[metric.name];
            if metric.value > threshold {
              var alert := Alert(AlertId(agentID, metric.name, now), agentID, metric.name, metric.value, threshold, now, Active);
              assert alert == AlertFor(agentID, metric, LimitsOf(thresholds, agentID)[metric.name], now);
              assert Breaches(agentID, ms[..i + 1], LimitsOf(thresholds, agentID), now) == before + [alert] != [];
              AppendEntry(old(alerts), alerts, agentID, before, alert);
              alerts := alerts[agentID := Entries(alerts, agentID) + [alert]];
            }
          }
        }
        i := i + 1;
      }
      assert ms[..i] == ms;
    }

    /** The agent's recorded metrics; an agent never ticked is an error. */
    method GetMetrics(agentID: string) returns (r: Result<seq<Metric>>)
      ensures r.Ok? <==> agentID in metrics
      ensures r.Ok? ==> r.value == metrics[agentID]
      ensures r.Err? ==> r.msg == "no metrics found for agent " + agentID
    {
      if agentID !in metrics {
        return Err("no metrics found for agent " + agentID);
      }
      r := Ok(metrics[agentID]);
    }

    /** The agent's raised alerts; an agent that never raised one is an
        error, even when it is polled. */
    method GetAlerts(agentID: string) returns (r: Result<seq<Alert>>)
      ensures r.Ok? <==> agentID in alerts
      ensures r.Ok? ==> r.value == alerts[agentID]
      ensures r.Err? ==> r.msg == "no alerts found for agent " + agentID
    {
      if agentID !in alerts {
        return Err("no alerts found for agent " + agentID);
      }
      r := Ok(alerts[agentID]);
    }

    /** Upserts one threshold, creating the agent's table when needed; it
        never fails. */
    method SetAlertThreshold(agentID: string, metric: string, threshold: real)
      modifies this
      ensures thresholds == old(thresholds)[agentID := LimitsOf(old(thresholds), agentID)[metric := threshold]]
      ensures metrics == old(metrics) && alerts == old(alerts) && polling == old(polling)
    {
      if agentID !in thresholds {
        thresholds := thresholds[agentID := map[]];
      }
      thresholds := thresholds[agentID := thresholds[agentID][metric := threshold]];
    }
  }

  /** Start, start again, stop, start: the second start is refused and the
      start after a stop succeeds. */
  method RestartAfterStop(agentID: string) returns (outcomes: seq<bool>)
    ensures outcomes == [true, false, true, true]
  {
    var m := new Monitor();
    var r1 := m.StartMonitoring(agentID, 10);
    var r2 := m.StartMonitoring(agentID, 10);
    var r3 := m.StopMonitoring(agentID);
    var r4 := m.StartMonitoring(agentID, 10);
    outcomes := [r1.Ok?, r2.Ok?, r3.Ok?, r4.Ok?];
  }

  /** A registered agent ticked without thresholds has its five metrics but
      no alert entry, so asking for its alerts is an error. */
  method PolledButNeverAlerted(a: Agents.Agent, stats: SystemStats, now: int)
    returns (metricCount: int, alertsFound: bool)
    ensures metricCount == 5 && !alertsFound
  {
    var queue := new JobQueue.RedisJobQueue();
    var registry := new AgentManager.Manager(queue);
    registry.RegisterAgent(a);
    var m := new Monitor();
    var _ := m.StartMonitoring(a.id, 10);
    m.Tick(a.id, registry, Ok(stats), now);
    NoThresholdsNoAlerts(a.id, TickMetrics(stats, now), now);
    var got := m.GetMetrics(a.id);
    metricCount := |got.value|;
    var raised := m.GetAlerts(a.id);
    alertsFound := raised.Ok?;
  }
}
