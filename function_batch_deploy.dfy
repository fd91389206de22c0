/** The function app's deployment controller: the create action, which validates the
    request body, creates the TURN pool if it is not listed and, when the rendering
    pool is not listed, creates it with its job, one task submission per rendering
    node and a task monitor; and the delete-pool action. */
module FunctionBatchDeploy {
  import opened CSharp
  import opened Models
  import opened Batch
  import opened Requests
  import opened FunctionBatchService

  const DefaultTurnPoolId: string := "DefaultTurnPool"
  const DefaultRenderingPoolId: string := "DefaultRenderingPool"
  const DefaultRenderingJobId: string := "3DSTKRenderingJob"
  const DefaultDedicatedNodes: int := 1
  const DefaultMaxUsers: int := -1

  /** The request's settings once the defaults are applied. */
  datatype Deployment = Deployment(
    signalingServer: Option<string>,
    signalingServerPort: Option<int>,
    turnPoolId: string,
    renderingPoolId: string,
    dedicatedTurnNodes: int,
    dedicatedRenderingNodes: int,
    maxUsersPerRenderingNode: int,
    renderingJobId: string)

  function DeploymentOf(b: DeploymentBody): Deployment {
    Deployment(
      b.signalingServer,
      b.signalingServerPort,
      OrElse(b.turnPoolId, DefaultTurnPoolId),
      OrElse(b.renderingPoolId, DefaultRenderingPoolId),
      IntOrElse(b.dedicatedTurnNodes, DefaultDedicatedNodes),
      IntOrElse(b.dedicatedRenderingNodes, DefaultDedicatedNodes),
      IntOrElse(b.maxUsersPerRenderingNode, DefaultMaxUsers),
      OrElse(b.renderingJobId, DefaultRenderingJobId))
  }

  predicate SignalingMissing(d: Deployment) {
    IsNullOrEmpty(d.signalingServer) || d.signalingServerPort.None?
  }

  predicate NodesMissing(d: Deployment) {
    d.dedicatedRenderingNodes < 1 || d.dedicatedTurnNodes < 1
  }

  /** The body checks, in order: signaling server and port, node counts, users per node. */
  function DeploymentCheck(d: Deployment): (m: string)
    ensures m == "" || IsValidationMessage(m)
    ensures m == "" <==> !SignalingMissing(d) && !NodesMissing(d) && d.maxUsersPerRenderingNode >= 1
    ensures m == ErrorNoSignalingFound <==> SignalingMissing(d)
    ensures m == ErrorOneDedicatedNodeRequired <==> !SignalingMissing(d) && NodesMissing(d)
    ensures m == ErrorOneMaxUserRequired <==>
              !SignalingMissing(d) && !NodesMissing(d) && d.maxUsersPerRenderingNode < 1
  {
    if SignalingMissing(d) then ErrorNoSignalingFound
    else if NodesMissing(d) then ErrorOneDedicatedNodeRequired
    else if d.maxUsersPerRenderingNode < 1 then ErrorOneMaxUserRequired
    else ""
  }

  /** Without a users-per-node field the default of -1 always fails the checks. */
  lemma OmittedMaxUsersRefused(b: DeploymentBody)
    requires b.maxUsersPerRenderingNode.None?
    ensures DeploymentCheck(DeploymentOf(b)) != ""
    ensures !SignalingMissing(DeploymentOf(b)) && !NodesMissing(DeploymentOf(b)) ==>
              DeploymentCheck(DeploymentOf(b)) == ErrorOneMaxUserRequired
  {
  }

  /** The number of passes of `for (i = 0; i < n; i++)`. */
  function Passes(n: int): nat {
    if n < 0 then 0 else n
  }

  /** `n` copies of one request. */
  function Repeat(c: Call, n: nat): (r: seq<Call>)
    ensures |r| == n
    ensures forall i :: 0 <= i < n ==> r[i] == c
  {
    if n == 0 then [] else Repeat(c, n - 1) + [c]
  }

  /** Every task submitted by the requests, in order. */
  function SubmittedTasks(calls: seq<Call>): seq<CloudTask> {
    if calls == [] then []
    else
      var last := calls[|calls| - 1];
      SubmittedTasks(calls[..|calls| - 1]) + (if last.AddTasks? then last.tasks else [])
  }

  lemma {:induction false} SubmittedTasksAppend(a: seq<Call>, b: seq<Call>)
    ensures SubmittedTasks(a + b) == SubmittedTasks(a) + SubmittedTasks(b)
    decreases |b|
  {
    if b == [] {
      assert a + b == a;
    } else {
      assert (a + b)[..|a + b| - 1] == a + b[..|b| - 1];
      SubmittedTasksAppend(a, b[..|b| - 1]);
    }
  }

  /** Submitting the same one-task request `n` times submits that task `n` times. */
  lemma {:induction false} SubmittedTasksRepeat(jobId: string, task: CloudTask, n: nat)
    ensures SubmittedTasks(Repeat(AddTasks(jobId, [task]), n)) == seq(n, _ => task)
  {
    if n > 0 {
      var r := Repeat(AddTasks(jobId, [task]), n);
      assert r[..n - 1] == Repeat(AddTasks(jobId, [task]), n - 1);
      assert SubmittedTasks(r) == SubmittedTasks(r[..n - 1]) + [task];
      SubmittedTasksRepeat(jobId, task, n - 1);
      assert seq(n, _ => task) == seq(n - 1, _ => task) + [task];
    }
  }

  /** What one stage of the create action did: the exception that escaped it, if any,
      the requests it sent and the pools it added to the listing. */
  datatype Step = Step(thrown: Option<Exception>, calls: seq<Call>, added: seq<CloudPool>)

  /** The TURN stage: create the pool if no pool with its id is listed. */
  function TurnStep(pools: seq<CloudPool>, d: Deployment, turnAnswer: PoolCommit): (st: Step)
    ensures FindPool(pools, d.turnPoolId).Some? ==> st == Step(None, [], [])
    ensures FindPool(pools, d.turnPoolId).None? ==>
              st.calls == [CreatePool(d.turnPoolId, TurnRole, d.dedicatedTurnNodes)]
    ensures st.thrown.Some? <==>
              FindPool(pools, d.turnPoolId).None? && turnAnswer.PoolRejected? && turnAnswer.error.code != PoolExistsCode
  {
    if FindPool(pools, d.turnPoolId).Some? then Step(None, [], [])
    else
      var r := CommitOutcome(d.turnPoolId, TurnRole, turnAnswer);
      var o := PoolCreationOutcome(r);
      Step(if o.Throws? then Some(o.exception) else None,
           [CreatePool(d.turnPoolId, TurnRole, d.dedicatedTurnNodes)], AddedBy(r))
  }

  /** The task submissions, one per rendering node; the first exception ends them. */
  function SubmissionStep(pools: seq<CloudPool>, d: Deployment): (st: Step)
    requires d.signalingServerPort.Some?
    ensures st.added == []
    ensures st.thrown.Some? ==> st.calls == []
    ensures st.calls != [] ==>
              RenderingSubmissionOutcome(pools, d.turnPoolId) == Returns(true)
              && SubmittedTasks(st.calls) == seq(Passes(d.dedicatedRenderingNodes), _ => RenderingTask(pools, d))
    ensures forall k :: 0 <= k < |st.calls| ==> st.calls[k].AddTasks?
    ensures st.thrown.Some? <==>
              Passes(d.dedicatedRenderingNodes) > 0 && RenderingSubmissionOutcome(pools, d.turnPoolId).Throws?
    ensures st.thrown.Some? ==> st.thrown.value == NullReference
    ensures st.calls != [] <==>
              Passes(d.dedicatedRenderingNodes) > 0 && RenderingSubmissionOutcome(pools, d.turnPoolId) == Returns(true)
  {
    var o := RenderingSubmissionOutcome(pools, d.turnPoolId);
    var n := Passes(d.dedicatedRenderingNodes);
    if n == 0 then Step(None, [], [])
    else if o.Throws? then Step(Some(o.exception), [], [])
    else if o == Returns(true) then
      SubmittedTasksRepeat(d.renderingJobId, RenderingTask(pools, d), n);
      Step(None, Repeat(SubmissionOf(pools, d), n), [])
    else Step(None, [], [])
  }

  /** The one request a successful submission sends. */
  function SubmissionOf(pools: seq<CloudPool>, d: Deployment): (c: Call)
    requires d.signalingServerPort.Some?
    requires RenderingSubmissionOutcome(pools, d.turnPoolId) == Returns(true)
    ensures c == AddTasks(d.renderingJobId, [RenderingTask(pools, d)])
  {
    RenderingSubmissionCalls(pools, d.turnPoolId, d.renderingJobId, d.signalingServer, d.signalingServerPort.value,
                             d.maxUsersPerRenderingNode)[0]
  }

  /** The task a successful submission carries. */
  function RenderingTask(pools: seq<CloudPool>, d: Deployment): (t: CloudTask)
    requires d.signalingServerPort.Some?
    requires RenderingSubmissionOutcome(pools, d.turnPoolId) == Returns(true)
    ensures t.id == RenderingTaskId
  {
    RenderingSubmissionCalls(pools, d.turnPoolId, d.renderingJobId, d.signalingServer, d.signalingServerPort.value,
                             d.maxUsersPerRenderingNode)[0].tasks[0]
  }

  function MonitorMessage(timedOut: bool): string {
    if timedOut then FailureMessage else SuccessMessage
  }

  /** The job stage: create the job, then submit the tasks, then monitor them. */
  function JobStep(pools: seq<CloudPool>, d: Deployment, jobAnswer: JobCommit, timedOut: bool): (st: Step)
    requires d.signalingServerPort.Some?
    ensures st.added == []
    ensures |st.calls| >= 1 && st.calls[0] == CreateJob(d.renderingJobId, d.renderingPoolId)
    ensures st.thrown.None? <==>
              jobAnswer.JobAccepted? && SubmissionStep(pools, d).thrown.None?
    ensures jobAnswer.JobRejected? ==> st.thrown == Some(BatchFailure(jobAnswer.error.code))
    ensures jobAnswer.JobAccepted? ==> st.thrown == SubmissionStep(pools, d).thrown
    ensures forall k :: 0 <= k < |st.calls| ==> !st.calls[k].CreatePool?
  {
    var job := [CreateJob(d.renderingJobId, d.renderingPoolId)];
    if jobAnswer.JobRejected? then Step(Some(BatchFailure(jobAnswer.error.code)), job, [])
    else
      var tasks := SubmissionStep(pools, d);
      if tasks.thrown.Some? then Step(tasks.thrown, job, [])
      else Step(None, job + tasks.calls + [TerminateJob(d.renderingJobId, MonitorMessage(timedOut))], [])
  }

  /** The rendering stage: if no pool with its id is listed, create the pool and, once
      it is committed or found to exist, run the job stage. */
  function RenderingStep(pools: seq<CloudPool>, d: Deployment, renderingAnswer: PoolCommit,
                         jobAnswer: JobCommit, timedOut: bool): (st: Step)
    requires d.signalingServerPort.Some?
    ensures FindPool(pools, d.renderingPoolId).Some? ==> st == Step(None, [], [])
    ensures FindPool(pools, d.renderingPoolId).None? ==>
              |st.calls| >= 1 && st.calls[0] == CreatePool(d.renderingPoolId, RenderingRole, d.dedicatedRenderingNodes)
    ensures forall k :: 0 <= k < |st.calls| ==> !(st.calls[k].CreatePool? && st.calls[k].role == TurnRole)
    ensures FindPool(pools, d.renderingPoolId).None? ==>
              var r := CommitOutcome(d.renderingPoolId, RenderingRole, renderingAnswer);
              (st.thrown.Some? <==>
                 PoolCreationOutcome(r).Throws? || jobAnswer.JobRejected?
                 || (Passes(d.dedicatedRenderingNodes) > 0
                     && RenderingSubmissionOutcome(pools + AddedBy(r), d.turnPoolId).Throws?))
              && (PoolCreationOutcome(r).Throws? ==> st.thrown == Some(BatchFailure(renderingAnswer.error.code)))
              && (!PoolCreationOutcome(r).Throws? && jobAnswer.JobRejected? ==>
                    st.thrown == Some(BatchFailure(jobAnswer.error.code)))
              && (!PoolCreationOutcome(r).Throws? && jobAnswer.JobAccepted? && st.thrown.Some? ==>
                    st.thrown == Some(NullReference))
  {
    if FindPool(pools, d.renderingPoolId).Some? then Step(None, [], [])
    else
      var r := CommitOutcome(d.renderingPoolId, RenderingRole, renderingAnswer);
      var o := PoolCreationOutcome(r);
      var create := [CreatePool(d.renderingPoolId, RenderingRole, d.dedicatedRenderingNodes)];
      if o.Throws? then Step(Some(o.exception), create, AddedBy(r))
      else
        var job := JobStep(pools + AddedBy(r), d, jobAnswer, timedOut);
        Step(job.thrown, create + job.calls, AddedBy(r))
  }

  /** The create action. */
  function PostEffect(pools: seq<CloudPool>, body: Option<DeploymentBody>, turnAnswer: PoolCommit,
                      renderingAnswer: PoolCommit, jobAnswer: JobCommit, timedOut: bool): Effect
  {
    if body.None? then Effect(Bad(ErrorBodyIsEmpty), [], [])
    else
      var d := DeploymentOf(body.value);
      var check := DeploymentCheck(d);
      if check != "" then Effect(Bad(check), [], [])
      else
        var turn := TurnStep(pools, d, turnAnswer);
        if turn.thrown.Some? then Effect(Faulted(turn.thrown.value), turn.calls, turn.added)
        else
          var rendering := RenderingStep(pools + turn.added, d, renderingAnswer, jobAnswer, timedOut);
          Effect(if rendering.thrown.Some? then Faulted(rendering.thrown.value) else Ok(),
                 turn.calls + rendering.calls, turn.added + rendering.added)
  }

  /** A body that fails a check is answered with that check's message, and nothing is requested. */
  lemma PostValidatesFirst(pools: seq<CloudPool>, body: Option<DeploymentBody>, turnAnswer: PoolCommit,
                           renderingAnswer: PoolCommit, jobAnswer: JobCommit, timedOut: bool)
    ensures var e := PostEffect(pools, body, turnAnswer, renderingAnswer, jobAnswer, timedOut);
            (e.calls == [] <==> body.None? || DeploymentCheck(DeploymentOf(body.value)) != ""
                                || (FindPool(pools, DeploymentOf(body.value).turnPoolId).Some?
                                    && FindPool(pools, DeploymentOf(body.value).renderingPoolId).Some?))
            && (body.Some? && DeploymentCheck(DeploymentOf(body.value)) != "" ==>
                  e.reply == Bad(DeploymentCheck(DeploymentOf(body.value))))
  {
    if body.Some? && DeploymentCheck(DeploymentOf(body.value)) == "" {
      var d := DeploymentOf(body.value);
      var turn := TurnStep(pools, d, turnAnswer);
      if FindPool(pools, d.turnPoolId).Some? {
        assert pools + turn.added == pools;
      }
    }
  }

  /** Past the checks, the create action answers Ok exactly when neither stage throws;
      otherwise it faults with the first stage's exception, and the rendering stage runs
      only after a TURN stage that did not throw. */
  lemma PostRepliesAfterChecks(pools: seq<CloudPool>, body: Option<DeploymentBody>, turnAnswer: PoolCommit,
                               renderingAnswer: PoolCommit, jobAnswer: JobCommit, timedOut: bool)
    requires body.Some? && DeploymentCheck(DeploymentOf(body.value)) == ""
    ensures var e := PostEffect(pools, body, turnAnswer, renderingAnswer, jobAnswer, timedOut);
            var d := DeploymentOf(body.value);
            var turn := TurnStep(pools, d, turnAnswer);
            var rendering := RenderingStep(pools + turn.added, d, renderingAnswer, jobAnswer, timedOut);
            (e.reply == Ok() <==> turn.thrown.None? && rendering.thrown.None?)
            && (turn.thrown.Some? ==> e == Effect(Faulted(turn.thrown.value), turn.calls, turn.added))
            && (turn.thrown.None? && rendering.thrown.Some? ==> e.reply == Faulted(rendering.thrown.value))
            && (turn.thrown.None? ==>
                  e.calls == turn.calls + rendering.calls && e.added == turn.added + rendering.added)
  {
  }

  /** The TURN pool is created exactly when the body passes the checks and no pool with
      its id is listed; the creation is then the first request. */
  lemma PostCreatesTurnPoolOnlyIfAbsent(pools: seq<CloudPool>, body: Option<DeploymentBody>, turnAnswer: PoolCommit,
                                        renderingAnswer: PoolCommit, jobAnswer: JobCommit, timedOut: bool)
    requires body.Some?
    ensures var e := PostEffect(pools, body, turnAnswer, renderingAnswer, jobAnswer, timedOut);
            var d := DeploymentOf(body.value);
            (exists k :: 0 <= k < |e.calls| && e.calls[k].CreatePool? && e.calls[k].role == TurnRole)
              <==> DeploymentCheck(d) == "" && FindPool(pools, d.turnPoolId).None?
  {
    var e := PostEffect(pools, body, turnAnswer, renderingAnswer, jobAnswer, timedOut);
    var d := DeploymentOf(body.value);
    if DeploymentCheck(d) == "" {
      var turn := TurnStep(pools, d, turnAnswer);
      if FindPool(pools, d.turnPoolId).None? {
        assert e.calls[0] == CreatePool(d.turnPoolId, TurnRole, d.dedicatedTurnNodes);
      } else if turn.thrown.None? {
        var rendering := RenderingStep(pools + turn.added, d, renderingAnswer, jobAnswer, timedOut);
        assert e.calls == rendering.calls;
      }
    }
  }

  /** Once the job is accepted, every rendering node gets one task submission, all with
      the same task, between the job's creation and its monitoring. */
  lemma JobStepSubmitsOncePerNode(pools: seq<CloudPool>, d: Deployment, jobAnswer: JobCommit, timedOut: bool)
    requires d.signalingServerPort.Some? && d.dedicatedRenderingNodes >= 1 && jobAnswer.JobAccepted?
    requires RenderingSubmissionOutcome(pools, d.turnPoolId) == Returns(true)
    ensures var st := JobStep(pools, d, jobAnswer, timedOut);
            st.thrown.None?
            && |st.calls| == d.dedicatedRenderingNodes + 2
            && SubmittedTasks(st.calls) == seq(d.dedicatedRenderingNodes, _ => RenderingTask(pools, d))
            && st.calls[|st.calls| - 1] == TerminateJob(d.renderingJobId, MonitorMessage(timedOut))
  {
    var st := JobStep(pools, d, jobAnswer, timedOut);
    var tasks := SubmissionStep(pools, d);
    var job := [CreateJob(d.renderingJobId, d.renderingPoolId)];
    var monitor := [TerminateJob(d.renderingJobId, MonitorMessage(timedOut))];
    assert st == Step(None, job + tasks.calls + monitor, []);
    SubmittedTasksAppend(job, tasks.calls);
    SubmittedTasksAppend(job + tasks.calls, monitor);
    assert SubmittedTasks(job) == [] by {
      assert job[..0] == [];
    }
    assert SubmittedTasks(monitor) == [] by {
      assert monitor[..0] == [];
    }
  }

  /** When the rendering pool is created and its job accepted, every rendering node gets
      one task submission, all with the same task, and the job is monitored last. */
  lemma RenderingStepSubmitsOncePerNode(pools: seq<CloudPool>, d: Deployment, renderingAnswer: PoolCommit,
                                        jobAnswer: JobCommit, timedOut: bool)
    requires d.signalingServerPort.Some? && d.dedicatedRenderingNodes >= 1
    requires FindPool(pools, d.renderingPoolId).None?
    requires renderingAnswer.Allocated? && jobAnswer.JobAccepted?
    requires RenderingSubmissionOutcome(pools + AddedBy(CommitOutcome(d.renderingPoolId, RenderingRole, renderingAnswer)),
                                        d.turnPoolId) == Returns(true)
    ensures var st := RenderingStep(pools, d, renderingAnswer, jobAnswer, timedOut);
            var pools' := pools + AddedBy(CommitOutcome(d.renderingPoolId, RenderingRole, renderingAnswer));
            st.thrown.None?
            && |st.calls| == d.dedicatedRenderingNodes + 3
            && st.calls[1] == CreateJob(d.renderingJobId, d.renderingPoolId)
            && SubmittedTasks(st.calls) == seq(d.dedicatedRenderingNodes, _ => RenderingTask(pools', d))
            && st.calls[|st.calls| - 1] == TerminateJob(d.renderingJobId, MonitorMessage(timedOut))
  {
    var r := CommitOutcome(d.renderingPoolId, RenderingRole, renderingAnswer);
    var pools' := pools + AddedBy(r);
    var job := JobStep(pools', d, jobAnswer, timedOut);
    var create := [CreatePool(d.renderingPoolId, RenderingRole, d.dedicatedRenderingNodes)];
    JobStepSubmitsOncePerNode(pools', d, jobAnswer, timedOut);
    assert RenderingStep(pools, d, renderingAnswer, jobAnswer, timedOut) == Step(None, create + job.calls, AddedBy(r));
    SubmittedTasksAppend(create, job.calls);
    assert SubmittedTasks(create) == [] by {
      assert create[..0] == [];
    }
  }

  // ---------------------------------------------------------------- the task id finding

  /** As written, two rendering nodes mean two submissions of one task id to one job. */
  lemma DuplicateRenderingTaskIds(pools: seq<CloudPool>, d: Deployment, renderingAnswer: PoolCommit,
                                  jobAnswer: JobCommit, timedOut: bool)
    requires d.signalingServerPort.Some? && d.dedicatedRenderingNodes == 2
    requires FindPool(pools, d.renderingPoolId).None?
    requires renderingAnswer.Allocated? && jobAnswer.JobAccepted?
    requires RenderingSubmissionOutcome(pools + AddedBy(CommitOutcome(d.renderingPoolId, RenderingRole, renderingAnswer)),
                                        d.turnPoolId) == Returns(true)
    ensures var tasks := SubmittedTasks(RenderingStep(pools, d, renderingAnswer, jobAnswer, timedOut).calls);
            |tasks| == 2 && tasks[0].id == tasks[1].id == RenderingTaskId
  {
    RenderingStepSubmitsOncePerNode(pools, d, renderingAnswer, jobAnswer, timedOut);
  }

  /** The id of the task for rendering node `i`, numbered so no two nodes share one. */
  function NumberedTaskId(i: nat): string {
    RenderingTaskId + "-" + FormatInt(i)
  }

  /** One task submission per rendering node, each with its own id. */
  function NumberedRenderingTasks(jobId: string, arguments: seq<string>, n: nat): (calls: seq<Call>)
    ensures |calls| == n
    ensures forall i :: 0 <= i < n ==> calls[i] == AddTasks(jobId, [CloudTask(NumberedTaskId(i), arguments)])
  {
    if n == 0 then [] else NumberedRenderingTasks(jobId, arguments, n - 1)
                           + [AddTasks(jobId, [CloudTask(NumberedTaskId(n - 1), arguments)])]
  }

  /** Numbered task ids are distinct within the 32-bit range of node counts. */
  lemma NumberedTaskIdsDistinct(i: nat, j: nat)
    requires i != j && IsInt32(i) && IsInt32(j)
    ensures NumberedTaskId(i) != NumberedTaskId(j)
  {
    var prefix := RenderingTaskId + "-";
    if NumberedTaskId(i) == NumberedTaskId(j) {
      assert (prefix + FormatInt(i))[|prefix|..] == FormatInt(i);
      assert (prefix + FormatInt(j))[|prefix|..] == FormatInt(j);
      ParseFormatRoundTrip(i);
      ParseFormatRoundTrip(j);
      assert false;
    }
  }

  /** With numbered ids every submitted task of the job has its own id. */
  lemma NumberedRenderingTasksUnique(jobId: string, arguments: seq<string>, n: nat)
    requires IsInt32(n)
    ensures var calls := NumberedRenderingTasks(jobId, arguments, n);
            forall i, j :: 0 <= i < j < n ==> calls[i].tasks[0].id != calls[j].tasks[0].id
  {
    var calls := NumberedRenderingTasks(jobId, arguments, n);
    forall i, j | 0 <= i < j < n
      ensures calls[i].tasks[0].id != calls[j].tasks[0].id
    {
      NumberedTaskIdsDistinct(i, j);
    }
  }

  // ---------------------------------------------------------------- the controller

  class Cloud3DSTKController {
    const batchService: BatchService

    constructor(batchService: BatchService)
      ensures this.batchService == batchService
    {
      this.batchService := batchService;
    }

    /** Creates the TURN pool when no pool with its id is listed. */
    method EnsureTurnPool(d: Deployment, turnAnswer: PoolCommit) returns (thrown: Option<Exception>)
      requires batchService.client.Valid() && WellFormedCommit(turnAnswer)
      modifies batchService.client
      ensures var st := TurnStep(old(batchService.client.pools), d, turnAnswer);
              thrown == st.thrown
              && batchService.client.log == old(batchService.client.log) + st.calls
              && batchService.client.pools == old(batchService.client.pools) + st.added
      ensures batchService.client.Valid()
    {
      var turnPool := FindPool(batchService.client.pools, d.turnPoolId);
      if turnPool.None? {
        var created := batchService.CreateTurnPool(d.turnPoolId, d.dedicatedTurnNodes, turnAnswer);
        if created.Throws? {
          return Some(created.exception);
        }
      }
      return None;
    }

    /** `dedicatedRenderingNodes` task submissions; the first exception escapes. */
    method SubmitRenderingTasks(d: Deployment) returns (thrown: Option<Exception>)
      requires d.signalingServerPort.Some?
      modifies batchService.client
      ensures var st := SubmissionStep(old(batchService.client.pools), d);
              thrown == st.thrown
              && batchService.client.log == old(batchService.client.log) + st.calls
              && batchService.client.pools == old(batchService.client.pools)
    {
      ghost var pools0 := batchService.client.pools;
      ghost var o := RenderingSubmissionOutcome(pools0, d.turnPoolId);
      ghost var n := Passes(d.dedicatedRenderingNodes);
      var i := 0;
      while i < d.dedicatedRenderingNodes
        invariant 0 <= i <= n
        invariant i > 0 ==> !o.Throws?
        invariant batchService.client.pools == pools0
        invariant batchService.client.log ==
                  old(batchService.client.log) + (if o == Returns(true) then Repeat(SubmissionOf(pools0, d), i) else [])
        decreases d.dedicatedRenderingNodes - i
      {
        var submitted := batchService.AddRenderingTasksAsync(d.turnPoolId, d.renderingJobId, d.signalingServer,
                                                             d.signalingServerPort.value, d.maxUsersPerRenderingNode);
        if submitted.Throws? {
          return Some(submitted.exception);
        }
        i := i + 1;
      }
      return None;
    }

    /** Creates the job, submits its tasks and monitors them. */
    method LaunchRenderingJob(d: Deployment, jobAnswer: JobCommit, timedOut: bool,
                              results: seq<Option<TaskExecutionResult>>) returns (thrown: Option<Exception>)
      requires d.signalingServerPort.Some?
      modifies batchService.client
      ensures var st := JobStep(old(batchService.client.pools), d, jobAnswer, timedOut);
              thrown == st.thrown
              && batchService.client.log == old(batchService.client.log) + st.calls
              && batchService.client.pools == old(batchService.client.pools)
    {
      ghost var log0 := batchService.client.log;
      thrown := batchService.CreateJobAsync(d.renderingJobId, d.renderingPoolId, jobAnswer);
      if thrown.Some? {
        return;
      }
      ghost var log1 := batchService.client.log;
      ghost var tasks := SubmissionStep(batchService.client.pools, d);
      thrown := SubmitRenderingTasks(d);
      if thrown.Some? {
        return;
      }
      var allTasksSuccessful := batchService.MonitorTasks(d.renderingJobId, timedOut, results);
      AppendAssociative(log0 + [CreateJob(d.renderingJobId, d.renderingPoolId)], tasks.calls,
                        [TerminateJob(d.renderingJobId, MonitorMessage(timedOut))]);
      return None;
    }

    /** Creates the rendering pool, its job and its tasks, and monitors them, when no
        pool with its id is listed. */
    method EnsureRenderingPool(d: Deployment, renderingAnswer: PoolCommit, jobAnswer: JobCommit, timedOut: bool,
                               results: seq<Option<TaskExecutionResult>>) returns (thrown: Option<Exception>)
      requires batchService.client.Valid() && WellFormedCommit(renderingAnswer) && d.signalingServerPort.Some?
      modifies batchService.client
      ensures var st := RenderingStep(old(batchService.client.pools), d, renderingAnswer, jobAnswer, timedOut);
              thrown == st.thrown
              && batchService.client.log == old(batchService.client.log) + st.calls
              && batchService.client.pools == old(batchService.client.pools) + st.added
    {
      var renderingPool := FindPool(batchService.client.pools, d.renderingPoolId);
      if renderingPool.None? {
        ghost var log0 := batchService.client.log;
        var created := batchService.CreateRenderingPool(d.renderingPoolId, d.dedicatedRenderingNodes, renderingAnswer);
        if created.Throws? {
          return Some(created.exception);
        }
        ghost var job := JobStep(batchService.client.pools, d, jobAnswer, timedOut);
        thrown := LaunchRenderingJob(d, jobAnswer, timedOut, results);
        AppendAssociative(log0, [CreatePool(d.renderingPoolId, RenderingRole, d.dedicatedRenderingNodes)], job.calls);
        return;
      }
      return None;
    }

    /** The create action (`api/Cloud3DSTK/create`). */
    method Post(jsonBody: Option<DeploymentBody>, turnAnswer: PoolCommit, renderingAnswer: PoolCommit,
                jobAnswer: JobCommit, timedOut: bool, results: seq<Option<TaskExecutionResult>>)
      returns (reply: Reply)
      requires batchService.client.Valid() && WellFormedCommit(turnAnswer) && WellFormedCommit(renderingAnswer)
      modifies batchService.client
      ensures var e := PostEffect(old(batchService.client.pools), jsonBody, turnAnswer, renderingAnswer, jobAnswer, timedOut);
              reply == e.reply
              && batchService.client.log == old(batchService.client.log) + e.calls
              && batchService.client.pools == old(batchService.client.pools) + e.added
    {
      if jsonBody.None? {
        return Bad(ErrorBodyIsEmpty);
      }
      var body := jsonBody.value;
      var signalingServer := body.signalingServer;
      var signalingServerPort := body.signalingServerPort;
      var turnPoolId := OrElse(body.turnPoolId, DefaultTurnPoolId);
      var renderingPoolId := OrElse(body.renderingPoolId, DefaultRenderingPoolId);
      var dedicatedTurnNodes := IntOrElse(body.dedicatedTurnNodes, DefaultDedicatedNodes);
      var dedicatedRenderingNodes := IntOrElse(body.dedicatedRenderingNodes, DefaultDedicatedNodes);
      var maxUsersPerRenderingNode := IntOrElse(body.maxUsersPerRenderingNode, DefaultMaxUsers);
      var renderingJobId := OrElse(body.renderingJobId, DefaultRenderingJobId);

      if IsNullOrEmpty(signalingServer) || signalingServerPort.None? {
        return Bad(ErrorNoSignalingFound);
      }
      if dedicatedRenderingNodes < 1 || dedicatedTurnNodes < 1 {
        return Bad(ErrorOneDedicatedNodeRequired);
      }
      if maxUsersPerRenderingNode < 1 {
        return Bad(ErrorOneMaxUserRequired);
      }

      var d := Deployment(signalingServer, signalingServerPort, turnPoolId, renderingPoolId, dedicatedTurnNodes,
                          dedicatedRenderingNodes, maxUsersPerRenderingNode, renderingJobId);
      assert d == DeploymentOf(body);
      ghost var pools0, log0 := batchService.client.pools, batchService.client.log;
      var thrown := EnsureTurnPool(d, turnAnswer);
      if thrown.Some? {
        return Faulted(thrown.value);
      }
      ghost var pools1, log1 := batchService.client.pools, batchService.client.log;
      thrown := EnsureRenderingPool(d, renderingAnswer, jobAnswer, timedOut, results);
      ghost var rendering := RenderingStep(pools1, d, renderingAnswer, jobAnswer, timedOut);
      AppendAssociative(log0, log1[|log0|..], rendering.calls);
      AppendAssociative(pools0, pools1[|pools0|..], rendering.added);
      if thrown.Some? {
        return Faulted(thrown.value);
      }
      return Ok();
    }

    /** The delete-pool action (`api/Cloud3DSTK/deleteBatchPool`). */
    method DeletePool(jsonBody: Option<DeletePoolBody>) returns (reply: Reply)
      modifies batchService.client
      ensures var e := DeletePoolEffect(jsonBody, old(batchService.client.pools));
              reply == e.reply
              && batchService.client.log == old(batchService.client.log) + e.calls
              && batchService.client.pools == old(batchService.client.pools)
    {
      if jsonBody.None? {
        return Bad(ErrorBodyIsEmpty);
      }
      var poolId := jsonBody.value.poolId;
      if IsNullOrEmpty(poolId) {
        return Bad(ErrorPoolIdRequired);
      }
      var pool := FindPool(batchService.client.pools, poolId.value);
      if pool.None? {
        return Bad(ErrorPoolIdNotFound);
      }
      batchService.DeletePoolAsync(poolId.value);
      return Ok();
    }
  }
}
