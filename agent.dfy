/** backend/internal/agent/agent.go: an agent turns a command into a job on
    the queue and answers with a "queued" receipt at once, without waiting
    for the job to run. */
module Agents {
  import opened Common
  import JobQueue

  /** A managed host. `lastHeartbeat` is in Unix seconds. */
  datatype Agent = Agent(id: string, name: string, hostname: string, ipAddress: string,
                         os: string, architecture: string, version: string,
                         lastHeartbeat: int, status: string, tags: seq<string>)

  /** A command to run on an agent; `timeout` is in seconds. */
  datatype AgentCommand = AgentCommand(command: string, args: seq<string>, timeout: int)

  /** The JSON object ExecuteCommand answers with: job_id, status, timestamp. */
  datatype Receipt = Receipt(jobId: string, status: string, timestamp: int)

  /** `fmt.Sprintf("%s-%d", a.ID, time.Now().Unix())`. */
  function JobId(agentId: string, now: int): string
  {
    StampedId("", agentId, now)
  }

  /** The job an agent builds for a command at time `now`; its status is
      left empty, for Enqueue to set. */
  function NewJob(a: Agent, cmd: AgentCommand, now: int): JobQueue.Job
  {
    JobQueue.Job(JobId(a.id, now), a.id, cmd.command, cmd.args, cmd.timeout, now, "", "")
  }

  /** Whether an Enqueue that meets these faults succeeds. */
  predicate EnqueueSucceeds(faults: set<JobQueue.Step>)
  {
    JobQueue.Marshal !in faults && JobQueue.Exec !in faults
  }

  /** The inner error of an Enqueue that meets these faults. */
  function EnqueueError(faults: set<JobQueue.Step>): string
  {
    if JobQueue.Marshal in faults then Wrap("failed to marshal job", JobQueue.CodecFailure)
    else JobQueue.StoreFailure
  }

  /** What ExecuteCommand answers for the agent with this id at time `now`:
      the "queued" receipt, or the wrapped enqueue error. */
  function Submission(agentId: string, now: int, faults: set<JobQueue.Step>): Result<Receipt>
  {
    if EnqueueSucceeds(faults) then Ok(Receipt(JobId(agentId, now), JobQueue.Queued, now))
    else Err(Wrap("failed to enqueue job", EnqueueError(faults)))
  }

  /** Job ids use whole seconds: two submissions to one agent collide
      exactly when they happen in the same second. */
  lemma JobIdsCollideIffSameSecond(agentId: string, t1: int, t2: int)
    ensures JobId(agentId, t1) == JobId(agentId, t2) <==> t1 == t2
  {
    StampedIdSameOwner("", agentId, t1, t2);
  }

  /** Submissions made in the same second to different agents get
      different ids. */
  lemma JobIdsDistinctAcrossAgents(a1: string, a2: string, now: int)
    ensures JobId(a1, now) == JobId(a2, now) <==> a1 == a2
  {
    StampedIdSameSecond("", a1, a2, now);
  }

  /** Builds the job, enqueues it once, and answers with a receipt carrying
      the job id and status "queued"; a failed enqueue is wrapped and no
      receipt is produced. */
  method ExecuteCommand(a: Agent, cmd: AgentCommand, queue: JobQueue.RedisJobQueue, now: int,
                        faults: set<JobQueue.Step>)
    returns (r: Result<Receipt>)
    requires queue.Valid()
    modifies queue
    ensures queue.Valid()
    ensures r == Submission(a.id, now, faults)
    ensures r.Ok? <==> EnqueueSucceeds(faults)
    ensures r.Err? ==> queue.records == old(queue.records) && queue.pending == old(queue.pending)
    ensures r.Err? ==> HasPrefix(r.msg, "failed to enqueue job: ")
    ensures r.Ok? ==> r.value == Receipt(JobId(a.id, now), JobQueue.Queued, now)
    ensures r.Ok? ==> queue.pending == JobQueue.LPush(old(queue.pending), JobId(a.id, now))
    ensures r.Ok? ==> queue.records == old(queue.records)[JobId(a.id, now) := NewJob(a, cmd, now).(status := JobQueue.Queued)]
    ensures r.Ok? ==>
      var job := queue.records[JobId(a.id, now)];
      && job.agentId == a.id && job.command == cmd.command && job.args == cmd.args
      && job.timeout == cmd.timeout && job.createdAt == now && job.status == JobQueue.Queued
  {
    var job := NewJob(a, cmd, now);
    var enq := queue.Enqueue(job, faults);
    if enq.Err? {
      return Err(Wrap("failed to enqueue job", enq.msg));
    }
    r := Ok(Receipt(job.id, JobQueue.Queued, now));
  }
}
