/** The function app's older create controller: the same body checks and defaults as
    the deployment controller, with no guard against a null body, and pool, job and
    task requests sent to service operations outside this model. */
module LegacyDeploy {
  import opened CSharp
  import opened Models
  import opened Batch
  import opened Requests
  import opened FunctionBatchService
  import opened FunctionBatchDeploy

  // The controller writes its three refusals as literals; they are the same texts as
  // ErrorNoSignalingFound, ErrorOneDedicatedNodeRequired and ErrorOneMaxUserRequired,
  // so DeploymentCheck states them.

  /** How many Windows task requests were sent. */
  function WindowsTaskRequests(calls: seq<Call>): nat {
    if calls == [] then 0
    else WindowsTaskRequests(calls[..|calls| - 1]) + (if calls[|calls| - 1].AddWindowsTasks? then 1 else 0)
  }

  lemma {:induction false} WindowsTaskRequestsAppend(a: seq<Call>, b: seq<Call>)
    ensures WindowsTaskRequests(a + b) == WindowsTaskRequests(a) + WindowsTaskRequests(b)
    decreases |b|
  {
    if b == [] {
      assert a + b == a;
    } else {
      assert (a + b)[..|a + b| - 1] == a + b[..|b| - 1];
      WindowsTaskRequestsAppend(a, b[..|b| - 1]);
    }
  }

  lemma {:induction false} WindowsTaskRequestsRepeat(c: Call, n: nat)
    requires c.AddWindowsTasks?
    ensures WindowsTaskRequests(Repeat(c, n)) == n
  {
    if n > 0 {
      assert Repeat(c, n)[..n - 1] == Repeat(c, n - 1);
      WindowsTaskRequestsRepeat(c, n - 1);
    }
  }

  /** The request each rendering node's task submission sends. */
  function WindowsTaskRequest(d: Deployment): Call
    requires d.signalingServerPort.Some? && d.signalingServer.Some?
  {
    AddWindowsTasks(d.turnPoolId, d.renderingJobId, d.signalingServer.value, d.signalingServerPort.value,
                    d.maxUsersPerRenderingNode)
  }

  /** The rendering stage: if no pool with its id is listed, the pool, the job, one task
      request per rendering node and the monitor; a refused job ends it with an exception. */
  function LegacyRenderingStep(pools: seq<CloudPool>, d: Deployment, jobAnswer: JobCommit, timedOut: bool): (st: Step)
    requires d.signalingServerPort.Some? && d.signalingServer.Some?
    ensures st.added == []
    ensures FindPool(pools, d.renderingPoolId).Some? ==> st.calls == [] && st.thrown.None?
    ensures FindPool(pools, d.renderingPoolId).None? ==>
              |st.calls| >= 2 && st.calls[..2] == [CreateWindowsPool(d.renderingPoolId, d.dedicatedRenderingNodes),
                                                    CreateJob(d.renderingJobId, d.renderingPoolId)]
    ensures st.thrown.Some? <==> FindPool(pools, d.renderingPoolId).None? && jobAnswer.JobRejected?
  {
    if FindPool(pools, d.renderingPoolId).Some? then Step(None, [], [])
    else
      var start := [CreateWindowsPool(d.renderingPoolId, d.dedicatedRenderingNodes),
                    CreateJob(d.renderingJobId, d.renderingPoolId)];
      if jobAnswer.JobRejected? then Step(Some(BatchFailure(jobAnswer.error.code)), start, [])
      else Step(None, start + Repeat(WindowsTaskRequest(d), Passes(d.dedicatedRenderingNodes))
                      + [TerminateJob(d.renderingJobId, MonitorMessage(timedOut))], [])
  }

  /** The TURN stage: a pool request when no pool with its id is listed. */
  function LinuxPoolRequest(pools: seq<CloudPool>, d: Deployment): seq<Call> {
    if FindPool(pools, d.turnPoolId).None? then [CreateLinuxPool(d.turnPoolId, d.dedicatedTurnNodes)] else []
  }

  /** The create action (`api/Cloud3DSTKApi`). The TURN pool request does not add to
      the listing, so both lookups read the same pools. */
  function LegacyPostEffect(pools: seq<CloudPool>, body: Option<DeploymentBody>, jobAnswer: JobCommit,
                            timedOut: bool): Effect
  {
    if body.None? then Effect(Faulted(NullReference), [], [])
    else
      var d := DeploymentOf(body.value);
      if SignalingMissing(d) then Effect(Bad(ErrorNoSignalingFound), [], [])
      else if NodesMissing(d) then Effect(Bad(ErrorOneDedicatedNodeRequired), [], [])
      else if d.maxUsersPerRenderingNode < 1 then Effect(Bad(ErrorOneMaxUserRequired), [], [])
      else LegacyDeployEffect(pools, d, jobAnswer, timedOut)
  }

  /** The controller's refusal texts are the deployment controller's messages. */
  lemma LiteralMessages()
    ensures "Signaling is required" == ErrorNoSignalingFound
    ensures "Pools must have at least one dedicated node" == ErrorOneDedicatedNodeRequired
    ensures "Rendering nodes must have at least one max user" == ErrorOneMaxUserRequired
  {
  }

  /** The create action once the body has passed the checks. */
  function LegacyDeployEffect(pools: seq<CloudPool>, d: Deployment, jobAnswer: JobCommit, timedOut: bool): Effect
    requires d.signalingServerPort.Some? && d.signalingServer.Some?
  {
    var turn := LinuxPoolRequest(pools, d);
    var rendering := LegacyRenderingStep(pools, d, jobAnswer, timedOut);
    Effect(if rendering.thrown.Some? then Faulted(rendering.thrown.value) else Ok(), turn + rendering.calls, [])
  }

  /** A null body fails on its first field; an empty one fails the signaling check;
      neither sends a request. */
  lemma LegacyNullAndEmptyBodies(pools: seq<CloudPool>, jobAnswer: JobCommit, timedOut: bool)
    ensures LegacyPostEffect(pools, None, jobAnswer, timedOut) == Effect(Faulted(NullReference), [], [])
    ensures var empty := DeploymentBody(None, None, None, None, None, None, None, None);
            LegacyPostEffect(pools, Some(empty), jobAnswer, timedOut) == Effect(Bad(ErrorNoSignalingFound), [], [])
  {
  }

  /** The body checks are the deployment controller's: a refused body gets that
      check's message and sends nothing; an accepted one goes on to the deployment. */
  lemma LegacyChecksLikeDeployment(pools: seq<CloudPool>, body: DeploymentBody, jobAnswer: JobCommit, timedOut: bool)
    ensures var e := LegacyPostEffect(pools, Some(body), jobAnswer, timedOut);
            var d := DeploymentOf(body);
            (DeploymentCheck(d) != "" ==> e == Effect(Bad(DeploymentCheck(d)), [], []))
            && (DeploymentCheck(d) == "" ==> e == LegacyDeployEffect(pools, d, jobAnswer, timedOut))
  {
  }

  /** The TURN pool is requested exactly when it is not listed, and then first. */
  lemma LegacyCreatesTurnPoolOnlyIfAbsent(pools: seq<CloudPool>, d: Deployment, jobAnswer: JobCommit, timedOut: bool)
    requires d.signalingServerPort.Some? && d.signalingServer.Some?
    ensures var e := LegacyDeployEffect(pools, d, jobAnswer, timedOut);
            ((exists k :: 0 <= k < |e.calls| && e.calls[k].CreateLinuxPool?) <==> FindPool(pools, d.turnPoolId).None?)
            && (FindPool(pools, d.turnPoolId).None? ==> e.calls[0] == CreateLinuxPool(d.turnPoolId, d.dedicatedTurnNodes))
  {
    var e := LegacyDeployEffect(pools, d, jobAnswer, timedOut);
    var rendering := LegacyRenderingStep(pools, d, jobAnswer, timedOut);
    assert forall k :: 0 <= k < |rendering.calls| ==> !rendering.calls[k].CreateLinuxPool? by {
      var start := [CreateWindowsPool(d.renderingPoolId, d.dedicatedRenderingNodes),
                    CreateJob(d.renderingJobId, d.renderingPoolId)];
      if FindPool(pools, d.renderingPoolId).None? {
        if jobAnswer.JobAccepted? {
          var tasks := Repeat(WindowsTaskRequest(d), Passes(d.dedicatedRenderingNodes));
          assert rendering.calls == start + tasks + [TerminateJob(d.renderingJobId, MonitorMessage(timedOut))];
        } else {
          assert rendering.calls == start;
        }
      }
    }
    if FindPool(pools, d.turnPoolId).Some? {
      assert e.calls == rendering.calls;
    } else {
      assert e.calls[0] == CreateLinuxPool(d.turnPoolId, d.dedicatedTurnNodes);
    }
  }

  /** Once the job is accepted, exactly `dedicatedRenderingNodes` task requests are sent,
      followed by the monitor; with the rendering pool listed, none are. */
  lemma LegacySubmitsOncePerNode(pools: seq<CloudPool>, d: Deployment, jobAnswer: JobCommit, timedOut: bool)
    requires d.signalingServerPort.Some? && d.signalingServer.Some? && d.dedicatedRenderingNodes >= 1
    ensures var e := LegacyDeployEffect(pools, d, jobAnswer, timedOut);
            WindowsTaskRequests(e.calls)
              == (if FindPool(pools, d.renderingPoolId).None? && jobAnswer.JobAccepted? then d.dedicatedRenderingNodes else 0)
            && (e.reply == Ok() <==> FindPool(pools, d.renderingPoolId).Some? || jobAnswer.JobAccepted?)
            && (FindPool(pools, d.renderingPoolId).None? && jobAnswer.JobAccepted? ==>
                  e.calls[|e.calls| - 1] == TerminateJob(d.renderingJobId, MonitorMessage(timedOut)))
  {
    var turn := LinuxPoolRequest(pools, d);
    assert WindowsTaskRequests(turn) == 0 by {
      if turn != [] {
        assert turn[..0] == [];
      }
    }
    var rendering := LegacyRenderingStep(pools, d, jobAnswer, timedOut);
    WindowsTaskRequestsAppend(turn, rendering.calls);
    var start := [CreateWindowsPool(d.renderingPoolId, d.dedicatedRenderingNodes),
                  CreateJob(d.renderingJobId, d.renderingPoolId)];
    assert WindowsTaskRequests(start) == 0 by {
      assert start[..1][..0] == [];
      assert start[..1] == [start[0]];
    }
    if FindPool(pools, d.renderingPoolId).None? {
      if jobAnswer.JobAccepted? {
        var tasks := Repeat(WindowsTaskRequest(d), Passes(d.dedicatedRenderingNodes));
        var monitor := [TerminateJob(d.renderingJobId, MonitorMessage(timedOut))];
        assert rendering.calls == start + tasks + monitor;
        WindowsTaskRequestsAppend(start, tasks);
        WindowsTaskRequestsAppend(start + tasks, monitor);
        WindowsTaskRequestsRepeat(WindowsTaskRequest(d), Passes(d.dedicatedRenderingNodes));
        assert WindowsTaskRequests(monitor) == 0 by {
          assert monitor[..0] == [];
        }
      } else {
        assert rendering.calls == start;
      }
    }
  }

  class Cloud3DSTKApiController {
    const batchService: BatchService

    constructor(batchService: BatchService)
      ensures this.batchService == batchService
    {
      this.batchService := batchService;
    }

    /** The rendering stage: pool, job, one task request per node, monitor. */
    method DeployRendering(d: Deployment, jobAnswer: JobCommit, timedOut: bool,
                           results: seq<Option<TaskExecutionResult>>) returns (thrown: Option<Exception>)
      requires d.signalingServerPort.Some? && d.signalingServer.Some?
      modifies batchService.client
      ensures var st := LegacyRenderingStep(old(batchService.client.pools), d, jobAnswer, timedOut);
              thrown == st.thrown
              && batchService.client.log == old(batchService.client.log) + st.calls
              && batchService.client.pools == old(batchService.client.pools)
    {
      var renderingPool := FindPool(batchService.client.pools, d.renderingPoolId);
      if renderingPool.Some? {
        return None;
      }
      batchService.client.Issue(CreateWindowsPool(d.renderingPoolId, d.dedicatedRenderingNodes));
      thrown := batchService.CreateJobAsync(d.renderingJobId, d.renderingPoolId, jobAnswer);
      if thrown.Some? {
        return;
      }
      ghost var log1 := batchService.client.log;
      var i := 0;
      while i < d.dedicatedRenderingNodes
        invariant 0 <= i <= Passes(d.dedicatedRenderingNodes)
        invariant batchService.client.pools == old(batchService.client.pools)
        invariant batchService.client.log == log1 + Repeat(WindowsTaskRequest(d), i)
        decreases d.dedicatedRenderingNodes - i
      {
        batchService.client.Issue(AddWindowsTasks(d.turnPoolId, d.renderingJobId, d.signalingServer.value,
                                                  d.signalingServerPort.value, d.maxUsersPerRenderingNode));
        i := i + 1;
      }
      var allTasksSuccessful := batchService.MonitorTasks(d.renderingJobId, timedOut, results);
      return None;
    }

    /** Requests the TURN pool when no pool with its id is listed. */
    method RequestLinuxPool(d: Deployment)
      modifies batchService.client
      ensures batchService.client.log == old(batchService.client.log) + LinuxPoolRequest(old(batchService.client.pools), d)
      ensures batchService.client.pools == old(batchService.client.pools)
    {
      var linuxPool := FindPool(batchService.client.pools, d.turnPoolId);
      if linuxPool.None? {
        batchService.client.Issue(CreateLinuxPool(d.turnPoolId, d.dedicatedTurnNodes));
      }
    }

    /** The create action. */
    method Post(jsonBody: Option<DeploymentBody>, jobAnswer: JobCommit, timedOut: bool,
                results: seq<Option<TaskExecutionResult>>) returns (reply: Reply)
      modifies batchService.client
      ensures var e := LegacyPostEffect(old(batchService.client.pools), jsonBody, jobAnswer, timedOut);
              reply == e.reply
              && batchService.client.log == old(batchService.client.log) + e.calls
              && batchService.client.pools == old(batchService.client.pools)
    {
      if jsonBody.None? {
        return Faulted(NullReference);
      }
      var body := jsonBody.value;
      var d := DeploymentOf(body);
      LiteralMessages();
      if IsNullOrEmpty(d.signalingServer) || d.signalingServerPort.None? {
        return Bad("Signaling is required");
      }
      if d.dedicatedRenderingNodes < 1 || d.dedicatedTurnNodes < 1 {
        return Bad("Pools must have at least one dedicated node");
      }
      if d.maxUsersPerRenderingNode < 1 {
        return Bad("Rendering nodes must have at least one max user");
      }
      reply := Deploy(d, jobAnswer, timedOut, results);
    }

    /** The TURN pool request and the rendering stage. */
    method Deploy(d: Deployment, jobAnswer: JobCommit, timedOut: bool, results: seq<Option<TaskExecutionResult>>)
      returns (reply: Reply)
      requires d.signalingServerPort.Some? && d.signalingServer.Some?
      modifies batchService.client
      ensures var e := LegacyDeployEffect(old(batchService.client.pools), d, jobAnswer, timedOut);
              reply == e.reply
              && batchService.client.log == old(batchService.client.log) + e.calls
              && batchService.client.pools == old(batchService.client.pools)
    {
      ghost var log0 := batchService.client.log;
      ghost var turn := LinuxPoolRequest(batchService.client.pools, d);
      ghost var rendering := LegacyRenderingStep(batchService.client.pools, d, jobAnswer, timedOut);
      RequestLinuxPool(d);
      var thrown := DeployRendering(d, jobAnswer, timedOut, results);
      AppendAssociative(log0, turn, rendering.calls);
      if thrown.Some? {
        return Faulted(thrown.value);
      }
      return Ok();
    }
  }
}
