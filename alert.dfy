/** backend/internal/monitoring/alert.go: the alert store, keyed by alert id.
    Handing a new alert to the notifiers (one goroutine each) is not
    modelled. */
module Alerts {
  import opened Common
  import opened Monitoring

  class AlertManager {
    var alerts: map<string, Alert>

    /** Every alert is filed under its own id. */
    ghost predicate Valid()
      reads this
    {
      forall id :: id in alerts ==> alerts[id].id == id
    }

    /** The ids of the stored alerts whose status is "active". */
    ghost function ActiveIds(): set<string>
      reads this
    {
      set id | id in alerts && alerts[id].status == Active
    }

    constructor ()
      ensures Valid() && alerts == map[]
    {
      alerts := map[];
    }

    /** Stores the alert under its id, replacing any alert with that id. */
    method AddAlert(alert: Alert)
      requires Valid()
      modifies this
      ensures Valid()
      ensures alerts == old(alerts)[alert.id := alert]
    {
      alerts := alerts[alert.id := alert];
    }

    /** Sets the alert's status to "resolved", leaving its other fields and
        every other alert as they were; an unknown id is an error. Resolving
        twice succeeds both times. */
    method ResolveAlert(alertID: string) returns (r: Result<()>)
      requires Valid()
      modifies this
      ensures Valid()
      ensures r.Ok? <==> alertID in old(alerts)
      ensures r.Err? ==> r.msg == "alert not found" && alerts == old(alerts)
      ensures r.Ok? ==> alerts == old(alerts)[alertID := old(alerts)[alertID].(status := Resolved)]
      ensures ActiveIds() == old(ActiveIds()) - {alertID}
    {
      if alertID !in alerts {
        return Err("alert not found");
      }
      var alert := alerts[alertID].(status := Resolved);
      alerts := alerts[alertID := alert];
      r := Ok(());
    }

    /** The active alerts, each once, in the unspecified order in which Go
        ranges over a map. `ids` names the key of each entry. */
    method GetActiveAlerts() returns (active: seq<Alert>, ghost ids: seq<string>)
      requires Valid()
      ensures |ids| == |active|
      ensures forall j :: 0 <= j < |active| ==> ids[j] in alerts && active[j] == alerts[ids[j]] && active[j].id == ids[j]
      ensures forall j :: 0 <= j < |active| ==> active[j].status == Active
      ensures forall j, k :: 0 <= j < k < |ids| ==> ids[j] != ids[k]
      ensures forall id :: id in alerts && alerts[id].status == Active ==> id in ids
    {
      var rest := alerts.Keys;
      active := [];
      ids := [];
      while rest != {}
        invariant rest <= alerts.Keys
        invariant |ids| == |active|
        invariant forall j :: 0 <= j < |active| ==> ids[j] in alerts && ids[j] !in rest && active[j] == alerts[ids[j]]
        invariant forall j :: 0 <= j < |active| ==> active[j].status == Active
        invariant forall j, k :: 0 <= j < k < |ids| ==> ids[j] != ids[k]
        invariant forall id :: id in alerts && id !in rest && alerts[id].status == Active ==> id in ids
        decreases |rest|
      {
        var id :| id in rest;
        if alerts[id].status == Active {
          active := active + [alerts[id]];
          ids := ids + [id];
        }
        rest := rest - {id};
      }
    }
  }

  /** Once an alert is resolved, it is not among the active alerts, whatever
      alerts were stored before. */
  method ResolvedIsNotActive(stored: seq<Alert>, alertID: string) returns (active: seq<Alert>)
    ensures forall a :: a in active ==> a.id != alertID
  {
    var m := new AlertManager();
    for i := 0 to |stored|
      invariant m.Valid()
    {
      m.AddAlert(stored[i]);
    }
    var _ := m.ResolveAlert(alertID);
    ghost var ids;
    active, ids := m.GetActiveAlerts();
    forall a | a in active
      ensures a.id != alertID
    {
      var j :| 0 <= j < |active| && active[j] == a;
    }
  }
}
