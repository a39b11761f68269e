/** backend/internal/patching/manager.go: per-agent patch history. Applying
    updates appends a "pending" record and submits an "apply-updates" job
    to the agent; a failed submission marks the record "failed". The agent
    registry and the job queue are given to the manager; the goroutine that
    later marks the record "completed" is modelled as the separate method
    MonitorPatchJob, without its sleep. */
module Patching {
  import opened Common
  import JobQueue
  import opened Agents
  import AgentManager

  /** An available update; `size` is in bytes. */
  datatype Update = Update(id: string, name: string, version: string, description: string,
                           severity: string, size: int)

  /** `startedAt` and `endedAt` are Unix seconds; `endedAt` is Go's zero
      time until the record is finished. */
  datatype PatchRecord = PatchRecord(id: string, agentId: string, updates: seq<string>, status: string,
                                     startedAt: int, endedAt: int, logs: string)

  const Pending: string := "pending"
  const Failed: string := "failed"
  const Completed: string := "completed"
  const Scheduled: string := "scheduled"

  /** Thirty minutes, the timeout of the apply-updates command. */
  const ApplyTimeout: int := 30 * Minute

  /** `fmt.Sprintf("patch-%s-%d", agentID, now)`. */
  function PatchId(agentId: string, now: int): string
  {
    StampedId("patch-", agentId, now)
  }

  /** The record ApplyUpdates or SchedulePatch appends. */
  function NewRecord(agentId: string, updates: seq<string>, status: string, startedAt: int, now: int): PatchRecord
  {
    PatchRecord(PatchId(agentId, now), agentId, updates, status, startedAt, ZeroTime, "")
  }

  /** The position of the first record with this id, or the length when
      there is none. */
  function FirstWithId(records: seq<PatchRecord>, id: string): (k: int)
    ensures 0 <= k <= |records|
    ensures forall j :: 0 <= j < k ==> records[j].id != id
    ensures k < |records| ==> records[k].id == id
  {
    if records == [] then 0
    else if records[0].id == id then 0
    else 1 + FirstWithId(records[1..], id)
  }

  /** The history after finishing the first record with this id; with no
      such record it is unchanged. */
  function MarkFirst(records: seq<PatchRecord>, id: string, status: string, endedAt: int, logs: string): seq<PatchRecord>
  {
    var k := FirstWithId(records, id);
    if k < |records| then records[k := records[k].(status := status, endedAt := endedAt, logs := logs)]
    else records
  }

  /** Finishing changes the status, end time and logs of the first record
      with the id, and nothing else; the history keeps its length. */
  lemma MarkFirstChangesOnlyFirstMatch(records: seq<PatchRecord>, id: string, status: string, endedAt: int, logs: string)
    ensures var marked := MarkFirst(records, id, status, endedAt, logs);
      && |marked| == |records|
      && (forall j :: 0 <= j < |records| && records[j].id != id ==> marked[j] == records[j])
      && (forall j, k :: 0 <= j < k < |records| && records[j].id == id ==> marked[k] == records[k])
      && (forall j :: 0 <= j < |records| && records[j].id == id && (forall i :: 0 <= i < j ==> records[i].id != id) ==>
            marked[j] == records[j].(status := status, endedAt := endedAt, logs := logs))
  {
    var k := FirstWithId(records, id);
    forall j | 0 <= j < |records| && records[j].id == id
      ensures k <= j
    {
    }
  }

  /** With no earlier record carrying its id, the last record is the one
      that gets finished. */
  lemma MarkFirstHitsFreshLast(earlier: seq<PatchRecord>, record: PatchRecord, status: string, endedAt: int, logs: string)
    requires forall j :: 0 <= j < |earlier| ==> earlier[j].id != record.id
    ensures MarkFirst(earlier + [record], record.id, status, endedAt, logs)
      == earlier + [record.(status := status, endedAt := endedAt, logs := logs)]
  {
    var rs := earlier + [record];
    var k := FirstWithId(rs, record.id);
    assert rs[|earlier|].id == record.id;
    assert forall j :: 0 <= j < |earlier| ==> rs[j] == earlier[j];
  }

  class PatchManager {
    /** agent id -> available updates. No operation of the manager fills it. */
    var updates: map<string, seq<Update>>
    /** agent id -> patch records, oldest first. */
    var history: map<string, seq<PatchRecord>>
    const registry: AgentManager.Manager
    const jobQueue: JobQueue.RedisJobQueue

    constructor (registry: AgentManager.Manager, jobQueue: JobQueue.RedisJobQueue)
      ensures updates == map[] && history == map[]
      ensures this.registry == registry && this.jobQueue == jobQueue
    {
      updates := map[];
      history := map[];
      this.registry := registry;
      this.jobQueue := jobQueue;
    }

    method CheckForUpdates(agentID: string) returns (r: Result<seq<Update>>)
      ensures r.Ok? <==> agentID in updates
      ensures r.Ok? ==> r.value == updates[agentID]
      ensures r.Err? ==> r.msg == "no updates found for agent " + agentID
    {
      if agentID !in updates {
        return Err("no updates found for agent " + agentID);
      }
      r := Ok(updates[agentID]);
    }

    /** Finishes the first record of the agent with this id: status, end
        time `now` and logs. A missing agent or id changes nothing. */
    method UpdatePatchStatus(agentID: string, patchID: string, status: string, logs: string, now: int)
      modifies this
      ensures updates == old(updates)
      ensures agentID !in old(history) ==> history == old(history)
      ensures agentID in old(history) ==>
        history == old(history)[agentID := MarkFirst(old(history)[agentID], patchID, status, now, logs)]
    {
      if agentID !in history {
        return;
      }
      var records := history[agentID];
      var i := 0;
      while i < |records|
        invariant 0 <= i <= |records|
        invariant forall j :: 0 <= j < i ==> records[j].id != patchID
        invariant history == old(history)
      {
        if records[i].id == patchID {
          assert FirstWithId(records, patchID) == i by {
            var k := FirstWithId(records, patchID);
            assert !(k < i) && !(i < k);
          }
          history := history[agentID := records[i := records[i].(status := status, endedAt := now, logs := logs)]];
          return;
        }
        i := i + 1;
      }
      assert FirstWithId(records, patchID) == |records|;
      assert history[agentID := records] == history;
    }

    /** Appends a "pending" record, submits the apply-updates job, and
        answers with the record's id. An unknown agent is an error that
        changes nothing; a failed submission marks the first record with the
        new id "failed", with the error as its logs, and returns the error. */
    method ApplyUpdates(agentID: string, ups: seq<string>, now: int, faults: set<JobQueue.Step>)
      returns (r: Result<string>)
      requires jobQueue.Valid()
      modifies this, jobQueue
      ensures jobQueue.Valid() && updates == old(updates)
      ensures agentID !in registry.agents ==>
        && r == Err("agent not found") && history == old(history)
        && jobQueue.records == old(jobQueue.records) && jobQueue.pending == old(jobQueue.pending)
      ensures agentID in registry.agents ==>
        var appended := Entries(old(history), agentID) + [NewRecord(agentID, ups, Pending, now, now)];
        var cmd := AgentCommand("apply-updates", ups, ApplyTimeout);
        var sub := Submission(registry.agents[agentID].id, now, faults);
        && (r.Ok? <==> EnqueueSucceeds(faults))
        && (r.Ok? ==> r.value == PatchId(agentID, now) && history == old(history)[agentID := appended])
        && (r.Err? ==>
              && r.msg == sub.msg
              && history == old(history)[agentID := MarkFirst(appended, PatchId(agentID, now), Failed, now, sub.msg)]
              && jobQueue.records == old(jobQueue.records) && jobQueue.pending == old(jobQueue.pending))
        && (r.Ok? ==> jobQueue.pending == JobQueue.LPush(old(jobQueue.pending), JobId(registry.agents[agentID].id, now)))
        && (r.Ok? ==> jobQueue.records == old(jobQueue.records)[JobId(registry.agents[agentID].id, now) :=
                        NewJob(registry.agents[agentID], cmd, now).(status := JobQueue.Queued)])
    {
      var found := registry.GetAgent(agentID);
      if found.None? {
        return Err("agent not found");
      }
      var a := found.value;
      var record := NewRecord(agentID, ups, Pending, now, now);
      history := history[agentID := Entries(history, agentID) + [record]];
      var cmd := AgentCommand("apply-updates", ups, ApplyTimeout);
      var res := ExecuteCommand(a, cmd, jobQueue, now, faults);
      if res.Err? {
        UpdatePatchStatus(agentID, record.id, Failed, res.msg, now);
        return Err(res.msg);
      }
      r := Ok(record.id);
    }

    /** The later completion of a submitted patch job. */
    method MonitorPatchJob(agentID: string, patchID: string, now: int)
      modifies this
      ensures updates == old(updates)
      ensures agentID !in old(history) ==> history == old(history)
      ensures agentID in old(history) ==>
        history == old(history)[agentID := MarkFirst(old(history)[agentID], patchID, Completed, now, "Updates applied successfully")]
    {
      UpdatePatchStatus(agentID, patchID, Completed, "Updates applied successfully", now);
    }

    method GetPatchHistory(agentID: string) returns (r: Result<seq<PatchRecord>>)
      ensures r.Ok? <==> agentID in history
      ensures r.Ok? ==> r.value == history[agentID]
      ensures r.Err? ==> r.msg == "no patch history found for agent " + agentID
    {
      if agentID !in history {
        return Err("no patch history found for agent " + agentID);
      }
      r := Ok(history[agentID]);
    }

    /** Appends a "scheduled" record starting at `when` and answers with its
        id. The agent is not looked up, and nothing is submitted. */
    method SchedulePatch(agentID: string, ups: seq<string>, when: int, now: int) returns (r: Result<string>)
      modifies this
      ensures r == Ok(PatchId(agentID, now))
      ensures updates == old(updates)
      ensures history == old(history)[agentID := Entries(old(history), agentID) + [NewRecord(agentID, ups, Scheduled, when, now)]]
    {
      var record := NewRecord(agentID, ups, Scheduled, when, now);
      history := history[agentID := Entries(history, agentID) + [record]];
      r := Ok(record.id);
    }
  }

  /** Two patches applied to one agent in the same second share an id, so
      when the second submission fails it is the first record that is
      marked "failed" while the second stays "pending". */
  method SameSecondFailureMarksEarlierRecord(a: Agent, ups: seq<string>, now: int)
    returns (statuses: seq<string>)
    ensures statuses == [Failed, Pending]
  {
    var queue := new JobQueue.RedisJobQueue();
    var registry := new AgentManager.Manager(queue);
    registry.RegisterAgent(a);
    var pm := new PatchManager(registry, queue);
    var first := pm.ApplyUpdates(a.id, ups, now, {});
    var second := pm.ApplyUpdates(a.id, ups, now, {JobQueue.Exec});
    var h := pm.GetPatchHistory(a.id);
    statuses := [h.value[0].status, h.value[1].status];
  }
}
