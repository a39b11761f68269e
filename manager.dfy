/** backend/internal/agent/manager.go: the registry of agents, keyed by id,
    and the dispatcher that submits a command to one agent or to all of
    them. The fan-out of RunCommandOnAll runs one goroutine per agent behind
    a WaitGroup; here the submissions run one after another, in the order of
    the registry snapshot, which is one of the orders the goroutines allow. */
module AgentManager {
  import opened Common
  import JobQueue
  import opened Agents

  /** One entry of RunCommandOnAll's answer: `{"result": …}` or `{"error": …}`. */
  datatype Dispatch = Sent(result: Receipt) | Failed(error: string)

  /** The job ids that the submissions to `agents`, in that order, push. */
  function SentIds(agents: seq<Agent>, now: int, faultsFor: string -> set<JobQueue.Step>): seq<string>
  {
    if agents == [] then []
    else
      var last := agents[|agents| - 1];
      SentIds(agents[..|agents| - 1], now, faultsFor)
        + (if EnqueueSucceeds(faultsFor(last.id)) then [JobId(last.id, now)] else [])
  }

  /** Every id in SentIds is the job id of a successful submission to one
      of the agents. */
  lemma {:induction false} SentIdsFrom(agents: seq<Agent>, now: int, faultsFor: string -> set<JobQueue.Step>, k: string)
    requires k in SentIds(agents, now, faultsFor)
    ensures exists j :: 0 <= j < |agents| && k == JobId(agents[j].id, now) && EnqueueSucceeds(faultsFor(agents[j].id))
  {
    var n := |agents|;
    var last := agents[n - 1];
    if k in SentIds(agents[..n - 1], now, faultsFor) {
      SentIdsFrom(agents[..n - 1], now, faultsFor, k);
      var j :| 0 <= j < n - 1 && k == JobId(agents[..n - 1][j].id, now) && EnqueueSucceeds(faultsFor(agents[..n - 1][j].id));
      assert agents[..n - 1][j] == agents[j];
    } else {
      assert k == JobId(last.id, now) && EnqueueSucceeds(faultsFor(last.id));
    }
  }

  /** Every successful submission's job id is in SentIds. */
  lemma {:induction false} SentIdsCover(agents: seq<Agent>, now: int, faultsFor: string -> set<JobQueue.Step>, j: int)
    requires 0 <= j < |agents| && EnqueueSucceeds(faultsFor(agents[j].id))
    ensures JobId(agents[j].id, now) in SentIds(agents, now, faultsFor)
  {
    var n := |agents|;
    if j < n - 1 {
      SentIdsCover(agents[..n - 1], now, faultsFor, j);
    }
  }

  function ToDispatch(r: Result<Receipt>): Dispatch
  {
    if r.Ok? then Sent(r.value) else Failed(r.msg)
  }

  /** The answer map after submitting to `agents` in order. */
  function Dispatched(agents: seq<Agent>, now: int, faultsFor: string -> set<JobQueue.Step>): map<string, Dispatch>
  {
    if agents == [] then map[]
    else
      var last := agents[|agents| - 1];
      Dispatched(agents[..|agents| - 1], now, faultsFor)[last.id := ToDispatch(Submission(last.id, now, faultsFor(last.id)))]
  }

  /** The answer has exactly one entry per agent, and each entry is that
      agent's own submission outcome: a receipt exactly when its enqueue
      succeeded. */
  lemma {:induction false} DispatchedEntries(agents: seq<Agent>, now: int, faultsFor: string -> set<JobQueue.Step>)
    ensures forall id :: id in Dispatched(agents, now, faultsFor) <==> exists j :: 0 <= j < |agents| && agents[j].id == id
    ensures forall id :: id in Dispatched(agents, now, faultsFor) ==>
      Dispatched(agents, now, faultsFor)[id] == ToDispatch(Submission(id, now, faultsFor(id)))
  {
    if agents != [] {
      var n := |agents|;
      DispatchedEntries(agents[..n - 1], now, faultsFor);
      forall id | id in Dispatched(agents, now, faultsFor)
        ensures exists j :: 0 <= j < n && agents[j].id == id
      {
        if id != agents[n - 1].id {
          var j :| 0 <= j < n - 1 && agents[..n - 1][j].id == id;
          assert agents[j].id == id;
        }
      }
      forall id | exists j :: 0 <= j < n && agents[j].id == id
        ensures id in Dispatched(agents, now, faultsFor)
      {
        var j :| 0 <= j < n && agents[j].id == id;
        if j < n - 1 {
          assert agents[..n - 1][j].id == id;
        }
      }
    }
  }

  /** The job records after submitting the command to `agents` in order,
      starting from `records`. */
  function RecordsAfter(records: map<string, JobQueue.Job>, agents: seq<Agent>, cmd: AgentCommand, now: int,
                        faultsFor: string -> set<JobQueue.Step>): map<string, JobQueue.Job>
  {
    if agents == [] then records
    else
      var last := agents[|agents| - 1];
      var before := RecordsAfter(records, agents[..|agents| - 1], cmd, now, faultsFor);
      if EnqueueSucceeds(faultsFor(last.id))
      then before[JobId(last.id, now) := NewJob(last, cmd, now).(status := JobQueue.Queued)]
      else before
  }

  /** After the fan-out, every successful submission's job is stored as
      built for its agent, with status "queued". */
  lemma {:induction false} RecordsAfterSent(records: map<string, JobQueue.Job>, agents: seq<Agent>, cmd: AgentCommand,
                                           now: int, faultsFor: string -> set<JobQueue.Step>)
    ensures forall j :: 0 <= j < |agents| && EnqueueSucceeds(faultsFor(agents[j].id)) ==>
      JobId(agents[j].id, now) in RecordsAfter(records, agents, cmd, now, faultsFor)
      && RecordsAfter(records, agents, cmd, now, faultsFor)[JobId(agents[j].id, now)] == NewJob(agents[j], cmd, now).(status := JobQueue.Queued)
  {
    if agents != [] {
      var n := |agents|;
      var last := agents[n - 1];
      var init := agents[..n - 1];
      var before := RecordsAfter(records, init, cmd, now, faultsFor);
      var after := RecordsAfter(records, agents, cmd, now, faultsFor);
      RecordsAfterSent(records, init, cmd, now, faultsFor);
      assert after == if EnqueueSucceeds(faultsFor(last.id))
        then before[JobId(last.id, now) := NewJob(last, cmd, now).(status := JobQueue.Queued)]
        else before;
      forall j | 0 <= j < n && EnqueueSucceeds(faultsFor(agents[j].id))
        ensures JobId(agents[j].id, now) in after
        ensures after[JobId(agents[j].id, now)] == NewJob(agents[j], cmd, now).(status := JobQueue.Queued)
      {
        if j < n - 1 {
          assert init[j] == agents[j];
        }
        if agents[j].id == last.id {
          assert NewJob(agents[j], cmd, now) == NewJob(last, cmd, now);
        } else {
          JobIdsDistinctAcrossAgents(agents[j].id, last.id, now);
        }
      }
    }
  }

  /** The fan-out adds no record other than the submissions' jobs, and
      keeps every record whose key is not one of their ids as it was. */
  lemma {:induction false} RecordsAfterOthers(records: map<string, JobQueue.Job>, agents: seq<Agent>, cmd: AgentCommand,
                                             now: int, faultsFor: string -> set<JobQueue.Step>)
    ensures forall k :: k !in SentIds(agents, now, faultsFor) ==>
      (k in RecordsAfter(records, agents, cmd, now, faultsFor) <==> k in records)
      && (k in records ==> RecordsAfter(records, agents, cmd, now, faultsFor)[k] == records[k])
    ensures forall k :: k in RecordsAfter(records, agents, cmd, now, faultsFor) ==> k in records || k in SentIds(agents, now, faultsFor)
  {
    if agents != [] {
      var n := |agents|;
      RecordsAfterOthers(records, agents[..n - 1], cmd, now, faultsFor);
    }
  }

  /** One more agent of the fan-out: its answer entry, its job record and
      its job id are added to those of the agents before it. */
  lemma SubmitStep(records: map<string, JobQueue.Job>, list: seq<Agent>, i: int, cmd: AgentCommand, now: int,
                   faultsFor: string -> set<JobQueue.Step>)
    requires 0 <= i < |list|
    ensures Dispatched(list[..i + 1], now, faultsFor) ==
      Dispatched(list[..i], now, faultsFor)[list[i].id := ToDispatch(Submission(list[i].id, now, faultsFor(list[i].id)))]
    ensures RecordsAfter(records, list[..i + 1], cmd, now, faultsFor) ==
      if EnqueueSucceeds(faultsFor(list[i].id))
      then RecordsAfter(records, list[..i], cmd, now, faultsFor)[JobId(list[i].id, now) :=
             NewJob(list[i], cmd, now).(status := JobQueue.Queued)]
      else RecordsAfter(records, list[..i], cmd, now, faultsFor)
    ensures SentIds(list[..i + 1], now, faultsFor) ==
      SentIds(list[..i], now, faultsFor) + (if EnqueueSucceeds(faultsFor(list[i].id)) then [JobId(list[i].id, now)] else [])
  {
    assert list[..i + 1][..i] == list[..i];
  }

  class Manager {
    var agents: map<string, Agent>
    const queue: JobQueue.RedisJobQueue
    /** 30 seconds; the source never reads it. */
    const timeout: int

    /** Each agent is filed under its own id, and the queue is consistent. */
    ghost predicate Valid()
      reads this, queue
    {
      && (forall id :: id in agents ==> agents[id].id == id)
      && queue.Valid()
    }

    constructor (queue: JobQueue.RedisJobQueue)
      requires queue.Valid()
      ensures Valid() && agents == map[] && this.queue == queue && timeout == 30
    {
      agents := map[];
      this.queue := queue;
      timeout := 30;
    }

    /** Upsert by id: the last registration wins, other entries stay. */
    method RegisterAgent(agent: Agent)
      requires Valid()
      modifies this
      ensures Valid()
      ensures agents == old(agents)[agent.id := agent]
    {
      agents := agents[agent.id := agent];
    }

    method GetAgent(id: string) returns (r: Option<Agent>)
      ensures r.Some? <==> id in agents
      ensures r.Some? ==> r.value == agents[id]
    {
      if id in agents {
        r := Some(agents[id]);
      } else {
        r := None;
      }
    }

    /** A snapshot of the registry: every agent exactly once, in the
        unspecified order in which Go ranges over a map. */
    method ListAgents() returns (list: seq<Agent>)
      requires Valid()
      ensures |list| == |agents|
      ensures forall j :: 0 <= j < |list| ==> list[j].id in agents && agents[list[j].id] == list[j]
      ensures forall j, k :: 0 <= j < k < |list| ==> list[j].id != list[k].id
      ensures forall id :: id in agents ==> exists j :: 0 <= j < |list| && list[j].id == id
    {
      var rest := agents.Keys;
      list := [];
      while rest != {}
        invariant rest <= agents.Keys
        invariant |list| + |rest| == |agents|
        invariant forall j :: 0 <= j < |list| ==> list[j].id in agents && list[j].id !in rest && agents[list[j].id] == list[j]
        invariant forall j, k :: 0 <= j < k < |list| ==> list[j].id != list[k].id
        invariant forall id :: id in agents && id !in rest ==> exists j :: 0 <= j < |list| && list[j].id == id
        decreases |rest|
      {
        var id :| id in rest;
        var before := list;
        list := list + [agents[id]];
        assert forall j :: 0 <= j < |before| ==> list[j] == before[j];
        assert list[|list| - 1].id == id;
        rest := rest - {id};
      }
    }

    /** Looks the agent up and submits the command; an unknown id is
        "agent not found" and nothing is enqueued. */
    method RunCommandOnAgent(agentID: string, cmd: AgentCommand, now: int, faults: set<JobQueue.Step>)
      returns (r: Result<Receipt>)
      requires Valid()
      modifies queue
      ensures Valid() && agents == old(agents)
      ensures agentID !in agents ==> r == Err("agent not found")
      ensures agentID !in agents || r.Err? ==>
        queue.records == old(queue.records) && queue.pending == old(queue.pending)
      ensures agentID in agents ==> (r.Ok? <==> EnqueueSucceeds(faults))
      ensures r.Ok? ==>
        && r.value == Receipt(JobId(agentID, now), JobQueue.Queued, now)
        && queue.pending == JobQueue.LPush(old(queue.pending), JobId(agentID, now))
        && queue.records == old(queue.records)[JobId(agentID, now) := NewJob(agents[agentID], cmd, now).(status := JobQueue.Queued)]
    {
      var found := GetAgent(agentID);
      if found.None? {
        return Err("agent not found");
      }
      r := ExecuteCommand(found.value, cmd, queue, now, faults);
    }

    /** Submits the command to every agent of a registry snapshot and answers
        with one entry per agent: its receipt, or its error. The registry is
        not changed; the queue receives one job per successful submission,
        pushed in the order of the snapshot. */
    method RunCommandOnAll(cmd: AgentCommand, now: int, faultsFor: string -> set<JobQueue.Step>)
      returns (results: map<string, Dispatch>, ghost snapshot: seq<Agent>)
      requires Valid()
      modifies queue
      ensures Valid() && agents == old(agents)
      ensures |snapshot| == |agents|
      ensures forall j :: 0 <= j < |snapshot| ==> snapshot[j].id in agents && agents[snapshot[j].id] == snapshot[j]
      ensures forall id :: id in agents ==> exists j :: 0 <= j < |snapshot| && snapshot[j].id == id
      ensures results == Dispatched(snapshot, now, faultsFor)
      ensures results.Keys == agents.Keys
      ensures queue.records == RecordsAfter(old(queue.records), snapshot, cmd, now, faultsFor)
      ensures queue.pending == JobQueue.PushAll(old(queue.pending), SentIds(snapshot, now, faultsFor))
    {
      var list := ListAgents();
      snapshot := list;
      results := SubmitAll(list, cmd, now, faultsFor);
      DispatchedEntries(snapshot, now, faultsFor);
    }

    /** The fan-out proper: one ExecuteCommand per agent, in order. */
    method SubmitAll(list: seq<Agent>, cmd: AgentCommand, now: int, faultsFor: string -> set<JobQueue.Step>)
      returns (results: map<string, Dispatch>)
      requires queue.Valid()
      modifies queue
      ensures queue.Valid()
      ensures results == Dispatched(list, now, faultsFor)
      ensures queue.records == RecordsAfter(old(queue.records), list, cmd, now, faultsFor)
      ensures queue.pending == JobQueue.PushAll(old(queue.pending), SentIds(list, now, faultsFor))
    {
      results := map[];
      var i := 0;
      while i < |list|
        invariant 0 <= i <= |list|
        invariant queue.Valid()
        invariant results == Dispatched(list[..i], now, faultsFor)
        invariant queue.records == RecordsAfter(old(queue.records), list[..i], cmd, now, faultsFor)
        invariant queue.pending == JobQueue.PushAll(old(queue.pending), SentIds(list[..i], now, faultsFor))
      {
        var a := list[i];
        SubmitStep(old(queue.records), list, i, cmd, now, faultsFor);
        ghost var sent := SentIds(list[..i], now, faultsFor);
        var r := ExecuteCommand(a, cmd, queue, now, faultsFor(a.id));
        if r.Ok? {
          assert SentIds(list[..i + 1], now, faultsFor) == sent + [JobId(a.id, now)];
          JobQueue.PushAllSnoc(old(queue.pending), sent, JobId(a.id, now));
        } else {
          assert SentIds(list[..i + 1], now, faultsFor) == sent + [];
          assert sent + [] == sent;
        }
        results := results[a.id := ToDispatch(r)];
        i := i + 1;
      }
      assert list[..i] == list;
    }
  }
}
