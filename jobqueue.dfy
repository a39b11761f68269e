/** The job queue of backend/internal/jobqueue: a Redis hash holding one
    record per job and a Redis list of pending job ids. The store is modelled
    by its contents (a map from job id to the decoded record, and the list as
    a sequence, head first); a failing round-trip or a failing JSON
    (un)marshal is chosen by the caller through the set of steps that fail. */
module JobQueue {
  import opened Common

  /** A job record as stored in the `data` field of `<prefix>:jobs:<id>`.
      `timeout` is in seconds, `createdAt` in Unix seconds. */
  datatype Job = Job(id: string, agentId: string, command: string, args: seq<string>,
                     timeout: int, createdAt: int, status: string, result: string)

  const Queued: string := "queued"
  const Running: string := "running"
  const Completed: string := "completed"
  const Failed: string := "failed"

  /** The points at which one call can fail: JSON encoding, the MULTI/EXEC
      transaction of Enqueue, RPOP, HGET, JSON decoding and HSET. */
  datatype Step = Marshal | Exec | Pop | Load | Unmarshal | Save

  /** Inner error texts: go-redis's reply for a missing key or an empty
      list, and stand-ins for a failing connection and a failing codec. */
  const NilReply: string := "redis: nil"
  const StoreFailure: string := "store failure"
  const CodecFailure: string := "codec failure"

  /** LPUSH: the id goes to the head of the list. */
  function LPush(list: seq<string>, id: string): seq<string>
  {
    [id] + list
  }

  /** Applies LPUSH to each id in turn. */
  function PushAll(list: seq<string>, ids: seq<string>): seq<string>
    decreases ids
  {
    if ids == [] then list else PushAll(LPush(list, ids[0]), ids[1..])
  }

  /** Pushing one more id after a batch. */
  lemma {:induction false} PushAllSnoc(list: seq<string>, ids: seq<string>, id: string)
    ensures PushAll(list, ids + [id]) == LPush(PushAll(list, ids), id)
    decreases ids
  {
    if ids != [] {
      assert (ids + [id])[1..] == ids[1..] + [id];
      PushAllSnoc(LPush(list, ids[0]), ids[1..], id);
    }
  }

  /** The ids that a run of RPOPs returns, one after another, until the
      list is empty: RPOP takes the last element. */
  function Drain(list: seq<string>): (out: seq<string>)
    ensures |out| == |list|
  {
    if list == [] then [] else [list[|list| - 1]] + Drain(list[..|list| - 1])
  }

  /** An id pushed at the head comes out after everything already pending. */
  lemma {:induction false} DrainLPush(list: seq<string>, id: string)
    ensures Drain(LPush(list, id)) == Drain(list) + [id]
  {
    if list != [] {
      var n := |list|;
      assert LPush(list, id)[..n] == LPush(list[..n - 1], id);
      DrainLPush(list[..n - 1], id);
    }
  }

  /** FIFO: after pushing `ids` in order, the pops return what was pending
      before, then `ids` in the order they were pushed. */
  lemma {:induction false} DrainPushAll(list: seq<string>, ids: seq<string>)
    ensures Drain(PushAll(list, ids)) == Drain(list) + ids
    decreases ids
  {
    if ids != [] {
      DrainPushAll(LPush(list, ids[0]), ids[1..]);
      DrainLPush(list, ids[0]);
      assert [ids[0]] + ids[1..] == ids;
    }
  }

  class RedisJobQueue {
    /** `<prefix>:jobs:<id>`: the decoded `data` field of each job. */
    var records: map<string, Job>
    /** `<prefix>:queue`, head first. */
    var pending: seq<string>

    /** Every pending id has a record: Enqueue writes both in one transaction
        and nothing deletes a record. */
    ghost predicate Valid()
      reads this
    {
      forall id :: id in pending ==> id in records
    }

    constructor ()
      ensures Valid() && records == map[] && pending == []
    {
      records := map[];
      pending := [];
    }

    /** Stores the job with its status forced to "queued" and pushes its id,
        both in one transaction: when the transaction fails neither happens. */
    method Enqueue(job: Job, faults: set<Step>) returns (r: Result<()>)
      requires Valid()
      modifies this
      ensures Valid()
      ensures r.Ok? <==> Marshal !in faults && Exec !in faults
      ensures Marshal in faults ==> r == Err(Wrap("failed to marshal job", CodecFailure))
      ensures Marshal !in faults && Exec in faults ==> r == Err(StoreFailure)
      ensures r.Err? ==> records == old(records) && pending == old(pending)
      ensures r.Ok? ==> records == old(records)[job.id := job.(status := Queued)]
      ensures r.Ok? ==> pending == LPush(old(pending), job.id)
    {
      var queued := job.(status := Queued);
      if Marshal in faults {
        return Err(Wrap("failed to marshal job", CodecFailure));
      }
      if Exec in faults {
        return Err(StoreFailure);
      }
      records := records[job.id := queued];
      pending := LPush(pending, job.id);
      r := Ok(());
    }

    /** Pops the oldest pending id and marks its job "running". An empty list
        is "no job" (Ok(None)), not an error. The pop and the status write are
        two round-trips: once the id is popped it stays popped even when the
        load, decode, encode or save that follows fails. */
    method Dequeue(faults: set<Step>) returns (r: Result<Option<Job>>)
      requires Valid()
      modifies this
      ensures Valid()
      ensures Pop in faults ==> r == Err(Wrap("failed to dequeue job", StoreFailure))
      ensures Pop !in faults && old(pending) == [] ==> r == Ok(None)
      ensures Pop in faults || old(pending) == [] ==> pending == old(pending) && records == old(records)
      ensures Pop !in faults && old(pending) != [] ==>
        && pending == old(pending)[..|old(pending)| - 1]
        && var id := old(pending)[|old(pending)| - 1];
           var running := old(records)[id].(status := Running);
           if Load !in faults && Unmarshal !in faults && Marshal !in faults && Save !in faults
           then r == Ok(Some(running)) && records == old(records)[id := running]
           else r.Err? && records == old(records)
      ensures Pop !in faults && old(pending) != [] && Load in faults ==>
        r == Err(Wrap("failed to get job data", StoreFailure))
      ensures Pop !in faults && old(pending) != [] && Load !in faults && Unmarshal in faults ==>
        r == Err(Wrap("failed to unmarshal job", CodecFailure))
      ensures Pop !in faults && old(pending) != [] && Load !in faults && Unmarshal !in faults && Marshal in faults ==>
        r == Err(Wrap("failed to marshal updated job", CodecFailure))
      ensures Pop !in faults && old(pending) != [] && faults !! {Load, Unmarshal, Marshal} && Save in faults ==>
        r == Err(Wrap("failed to update job status", StoreFailure))
    {
      if Pop in faults {
        return Err(Wrap("failed to dequeue job", StoreFailure));
      }
      if pending == [] {
        return Ok(None);
      }
      var id := pending[|pending| - 1];
      pending := pending[..|pending| - 1];
      if Load in faults || id !in records {
        return Err(Wrap("failed to get job data", if Load in faults then StoreFailure else NilReply));
      }
      if Unmarshal in faults {
        return Err(Wrap("failed to unmarshal job", CodecFailure));
      }
      var job := records[id].(status := Running);
      if Marshal in faults {
        return Err(Wrap("failed to marshal updated job", CodecFailure));
      }
      if Save in faults {
        return Err(Wrap("failed to update job status", StoreFailure));
      }
      records := records[id := job];
      r := Ok(Some(job));
    }

    /** Load, overwrite status and result, save: the shared body of
        CompleteJob and FailJob. Neither looks at the status it replaces. */
    method Finish(jobID: string, status: string, payload: string, encodeContext: string, faults: set<Step>)
      returns (r: Result<()>)
      requires Valid()
      modifies this
      ensures Valid() && pending == old(pending)
      ensures r.Ok? <==> jobID in old(records) && faults !! {Load, Unmarshal, Marshal, Save}
      ensures jobID !in old(records) && Load !in faults ==> r == Err(Wrap("failed to get job data", NilReply))
      ensures r.Err? ==> records == old(records)
      ensures r.Ok? ==> records == old(records)[jobID := old(records)[jobID].(status := status, result := payload)]
    {
      if Load in faults || jobID !in records {
        return Err(Wrap("failed to get job data", if Load in faults then StoreFailure else NilReply));
      }
      if Unmarshal in faults {
        return Err(Wrap("failed to unmarshal job", CodecFailure));
      }
      var job := records[jobID].(status := status, result := payload);
      if Marshal in faults {
        return Err(Wrap(encodeContext, CodecFailure));
      }
      if Save in faults {
        return Err(StoreFailure);
      }
      records := records[jobID := job];
      r := Ok(());
    }

    /** Marks the job "completed" with the given result, whatever its status was. */
    method CompleteJob(jobID: string, result: string, faults: set<Step>) returns (r: Result<()>)
      requires Valid()
      modifies this
      ensures Valid() && pending == old(pending)
      ensures r.Ok? <==> jobID in old(records) && faults !! {Load, Unmarshal, Marshal, Save}
      ensures jobID !in old(records) && Load !in faults ==> r == Err(Wrap("failed to get job data", NilReply))
      ensures r.Err? ==> records == old(records)
      ensures r.Ok? ==> records == old(records)[jobID := old(records)[jobID].(status := Completed, result := result)]
    {
      r := Finish(jobID, Completed, result, "failed to marshal completed job", faults);
    }

    /** Marks the job "failed" with the given message, whatever its status was. */
    method FailJob(jobID: string, errorMsg: string, faults: set<Step>) returns (r: Result<()>)
      requires Valid()
      modifies this
      ensures Valid() && pending == old(pending)
      ensures r.Ok? <==> jobID in old(records) && faults !! {Load, Unmarshal, Marshal, Save}
      ensures jobID !in old(records) && Load !in faults ==> r == Err(Wrap("failed to get job data", NilReply))
      ensures r.Err? ==> records == old(records)
      ensures r.Ok? ==> records == old(records)[jobID := old(records)[jobID].(status := Failed, result := errorMsg)]
    {
      r := Finish(jobID, Failed, errorMsg, "failed to marshal failed job", faults);
    }

    /** Read-only fetch of one record. */
    method GetJob(jobID: string, faults: set<Step>) returns (r: Result<Job>)
      ensures r.Ok? <==> jobID in records && Load !in faults && Unmarshal !in faults
      ensures r.Ok? ==> r.value == records[jobID]
      ensures jobID !in records && Load !in faults ==> r == Err(Wrap("failed to get job data", NilReply))
    {
      if Load in faults || jobID !in records {
        return Err(Wrap("failed to get job data", if Load in faults then StoreFailure else NilReply));
      }
      if Unmarshal in faults {
        return Err(Wrap("failed to unmarshal job", CodecFailure));
      }
      r := Ok(records[jobID]);
    }
  }

  /** One job through the whole lifecycle on a fresh queue: the statuses it
      is observed with are queued, running, completed, and then, because
      nothing guards a terminal status, failed. */
  method TerminalStatusIsNotGuarded(job: Job) returns (observed: seq<string>)
    ensures observed == [Queued, Running, Completed, Failed]
  {
    var q := new RedisJobQueue();
    var _ := q.Enqueue(job, {});
    var got := q.GetJob(job.id, {});
    observed := [got.value.status];
    var popped := q.Dequeue({});
    observed := observed + [popped.value.value.status];
    var _ := q.CompleteJob(job.id, "ok", {});
    got := q.GetJob(job.id, {});
    observed := observed + [got.value.status];
    var _ := q.FailJob(job.id, "late failure", {});
    got := q.GetJob(job.id, {});
    observed := observed + [got.value.status];
  }
}
