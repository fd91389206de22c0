/** The function app's Batch service: pool commits that answer true, false for an
    existing pool, or rethrow; the rendering task submission; and the task monitor
    that inspects each task's execution result. */
module FunctionBatchService {
  import opened CSharp
  import opened Models
  import opened Batch

  /** Where the streaming application sits inside each rendering VM. */
  const ServerPath: string := "C:/3dstk/Server"

  /** The id every rendering task is submitted with. */
  const RenderingTaskId: string := "StartRendering"

  /** The rendering service's own port, passed to the deploy script. */
  const RenderingServicePort: int := 5000

  /** The answer to a pool commit: true once committed, false when the service reports
      that the pool exists, and any other refusal rethrown. */
  function PoolCreationOutcome(r: CommitResult): (o: Exceptional<bool>)
    ensures o == Returns(true) <==> r.Committed?
    ensures o == Returns(false) <==> r.Rejected? && r.error.code == PoolExistsCode
    ensures o.Throws? <==> r.Rejected? && r.error.code != PoolExistsCode
    ensures o.Throws? ==> o.exception == BatchFailure(r.error.code)
  {
    match r
    case Committed(_) => Returns(true)
    case Rejected(error) => if error.code == PoolExistsCode then Returns(false) else Throws(BatchFailure(error.code))
  }

  /** The deploy script's arguments, in command-line order: the TURN URI, the TURN
      credentials, the signaling server and port, the rendering service port, the
      capacity, and last the server path. A null signaling URL formats as "". */
  function RenderingArguments(turnIp: string, signalingServerUrl: Option<string>, signalingServerPort: int,
                              serverCapacity: int): (args: seq<string>)
    ensures |args| == 8
  {
    ["turn:" + turnIp + ":3478", "username", "password", OrElse(signalingServerUrl, ""),
     FormatInt(signalingServerPort), FormatInt(RenderingServicePort), FormatInt(serverCapacity), ServerPath]
  }

  /** The command line names the TURN server and its fixed credentials, its numbers read
      back as the numbers passed in, and the server path comes after them. */
  lemma RenderingArgumentsReadBack(turnIp: string, signalingServerUrl: Option<string>, signalingServerPort: int,
                                   serverCapacity: int)
    requires IsInt32(signalingServerPort) && IsInt32(serverCapacity)
    ensures var args := RenderingArguments(turnIp, signalingServerUrl, signalingServerPort, serverCapacity);
            ParseInt32(args[4]) == Some(signalingServerPort)
            && ParseInt32(args[5]) == Some(RenderingServicePort)
            && ParseInt32(args[6]) == Some(serverCapacity)
            && args[0] == "turn:" + turnIp + ":3478"
            && args[1] == "username" && args[2] == "password"
            && args[7] == ServerPath
            && (signalingServerUrl.Some? ==> args[3] == signalingServerUrl.value)
            && (signalingServerUrl.None? ==> args[3] == "")
  {
    ParseFormatRoundTrip(signalingServerPort);
    ParseFormatRoundTrip(RenderingServicePort);
    ParseFormatRoundTrip(serverCapacity);
  }

  /** What a rendering task submission answers: false when the TURN pool is not listed,
      a null dereference when it has no nodes, and true once the task is submitted. */
  function RenderingSubmissionOutcome(pools: seq<CloudPool>, turnServersPool: string): (o: Exceptional<bool>)
    ensures o == Returns(false) <==> FindPool(pools, turnServersPool).None?
    ensures o == Throws(NullReference) <==>
              FindPool(pools, turnServersPool).Some? && FindPool(pools, turnServersPool).value.nodes == []
    ensures o == Returns(true) <==>
              FindPool(pools, turnServersPool).Some? && FindPool(pools, turnServersPool).value.nodes != []
  {
    var turnPool := FindPool(pools, turnServersPool);
    if turnPool.None? then Returns(false)
    else if turnPool.value.nodes == [] then Throws(NullReference)
    else Returns(true)
  }

  /** The requests a rendering task submission sends: one task, always with the same id,
      pointing the node at the TURN pool's first node. */
  function RenderingSubmissionCalls(pools: seq<CloudPool>, turnServersPool: string, jobId: string,
                                    signalingServerUrl: Option<string>, signalingServerPort: int,
                                    serverCapacity: int): (calls: seq<Call>)
    ensures calls != [] <==> RenderingSubmissionOutcome(pools, turnServersPool) == Returns(true)
    ensures calls != [] ==>
              |calls| == 1 && calls[0].AddTasks? && calls[0].jobId == jobId
              && |calls[0].tasks| == 1 && calls[0].tasks[0].id == RenderingTaskId
              && calls[0].tasks[0].arguments
                 == RenderingArguments(FindPool(pools, turnServersPool).value.nodes[0].ipAddress,
                                       signalingServerUrl, signalingServerPort, serverCapacity)
  {
    var turnPool := FindPool(pools, turnServersPool);
    if turnPool.None? || turnPool.value.nodes == [] then []
    else
      var topNode := turnPool.value.nodes[0];
      var arguments := RenderingArguments(topNode.ipAddress, signalingServerUrl, signalingServerPort, serverCapacity);
      [AddTasks(jobId, [CloudTask(RenderingTaskId, arguments)])]
  }

  /** `TaskExecutionResult` of a task that ran. */
  datatype TaskExecutionResult = TaskSuccess | TaskFailure

  /** Whether no task ran into a failure; a task with no execution result did not. */
  predicate NoTaskFailed(results: seq<Option<TaskExecutionResult>>) {
    forall i :: 0 <= i < |results| ==> results[i] != Some(TaskFailure)
  }

  class BatchService {
    const client: BatchClient

    constructor(client: BatchClient)
      ensures this.client == client
    {
      this.client := client;
    }

    /** `CreateTurnPool`: commits a Linux pool. */
    method CreateTurnPool(poolId: string, dedicatedNodes: int, answer: PoolCommit) returns (o: Exceptional<bool>)
      requires client.Valid() && WellFormedCommit(answer)
      modifies client
      ensures o == PoolCreationOutcome(CommitOutcome(poolId, TurnRole, answer))
      ensures client.log == old(client.log) + [CreatePool(poolId, TurnRole, dedicatedNodes)]
      ensures client.pools == old(client.pools) + AddedBy(CommitOutcome(poolId, TurnRole, answer))
      ensures client.Valid()
    {
      var r := client.CommitPool(poolId, TurnRole, dedicatedNodes, answer);
      if r.Rejected? {
        if r.error.code == PoolExistsCode {
          return Returns(false);
        }
        return Throws(BatchFailure(r.error.code));
      }
      return Returns(true);
    }

    /** `CreateRenderingPool`: commits a Windows pool. */
    method CreateRenderingPool(poolId: string, dedicatedNodes: int, answer: PoolCommit) returns (o: Exceptional<bool>)
      requires client.Valid() && WellFormedCommit(answer)
      modifies client
      ensures o == PoolCreationOutcome(CommitOutcome(poolId, RenderingRole, answer))
      ensures client.log == old(client.log) + [CreatePool(poolId, RenderingRole, dedicatedNodes)]
      ensures client.pools == old(client.pools) + AddedBy(CommitOutcome(poolId, RenderingRole, answer))
      ensures client.Valid()
    {
      var r := client.CommitPool(poolId, RenderingRole, dedicatedNodes, answer);
      if r.Rejected? {
        if r.error.code == PoolExistsCode {
          return Returns(false);
        }
        return Throws(BatchFailure(r.error.code));
      }
      return Returns(true);
    }

    /** `AddRenderingTasksAsync`: one task that points a rendering node at the TURN
        pool's first node and at the signaling server. */
    method AddRenderingTasksAsync(turnServersPool: string, jobId: string, signalingServerUrl: Option<string>,
                                  signalingServerPort: int, serverCapacity: int) returns (o: Exceptional<bool>)
      modifies client
      ensures o == RenderingSubmissionOutcome(old(client.pools), turnServersPool)
      ensures client.log == old(client.log) + RenderingSubmissionCalls(old(client.pools), turnServersPool, jobId,
                                                                       signalingServerUrl, signalingServerPort, serverCapacity)
      ensures client.pools == old(client.pools)
    {
      var turnPool := FindPool(client.pools, turnServersPool);
      if turnPool.None? {
        return Returns(false);
      }
      var turnNodes := turnPool.value.nodes;
      if |turnNodes| == 0 {
        return Throws(NullReference);
      }
      var topNode := turnNodes[0];
      var tasks: seq<CloudTask> := [];
      var taskId := RenderingTaskId;
      var arguments := RenderingArguments(topNode.ipAddress, signalingServerUrl, signalingServerPort, serverCapacity);
      tasks := tasks + [CloudTask(taskId, arguments)];
      assert tasks == [CloudTask(RenderingTaskId, arguments)];
      client.Issue(AddTasks(jobId, tasks));
      return Returns(true);
    }

    /** `MonitorTasks`: terminates the job once; on a timeout it gives up at once, otherwise
        it looks at each task's execution result and answers whether none failed. */
    method MonitorTasks(jobId: string, timedOut: bool, results: seq<Option<TaskExecutionResult>>)
      returns (allTasksSuccessful: bool)
      modifies client
      ensures allTasksSuccessful <==> !timedOut && NoTaskFailed(results)
      ensures client.log == old(client.log) + [TerminateJob(jobId, if timedOut then FailureMessage else SuccessMessage)]
      ensures client.pools == old(client.pools)
    {
      allTasksSuccessful := true;
      if timedOut {
        client.Issue(TerminateJob(jobId, FailureMessage));
        return false;
      }
      client.Issue(TerminateJob(jobId, SuccessMessage));
      for i := 0 to |results|
        invariant allTasksSuccessful <==> NoTaskFailed(results[..i])
      {
        assert results[..i + 1] == results[..i] + [results[i]];
        if results[i] == Some(TaskFailure) {
          allTasksSuccessful := false;
        }
      }
      assert results[..|results|] == results;
    }

    /** `CreateJobAsync`: commits the job; a refusal escapes as an exception. */
    method CreateJobAsync(jobId: string, poolId: string, answer: JobCommit) returns (thrown: Option<Exception>)
      modifies client
      ensures thrown.None? <==> answer.JobAccepted?
      ensures thrown.Some? ==> thrown.value == BatchFailure(answer.error.code)
      ensures client.log == old(client.log) + [CreateJob(jobId, poolId)]
      ensures client.pools == old(client.pools)
    {
      var error := client.CommitJob(jobId, poolId, answer);
      if error.Some? {
        return Some(BatchFailure(error.value.code));
      }
      return None;
    }

    /** `DeletePoolAsync` */
    method DeletePoolAsync(poolId: string)
      modifies client
      ensures client.log == old(client.log) + [DeletePool(poolId)]
      ensures client.pools == old(client.pools)
    {
      client.Issue(DeletePool(poolId));
    }
  }
}
