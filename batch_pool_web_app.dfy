/** The pool web app's create controller: a Linux (TURN) pool with a job that must
    finish, rolled back if it does not, and then a Windows pool bound to it. Its
    service is a stub outside this model, so each request is only recorded. */
module BatchPoolWebApp {
  import opened CSharp
  import opened Models
  import opened Batch
  import opened Requests

  // The controller's refusals are the texts ErrorNoSignalingFound and LinuxTasksFailed.

  const DefaultLinuxPoolId: string := "LinuxPool"
  const DefaultWindowsPoolId: string := "WindowsPool"
  const DefaultWindowsJobId: string := "3DSTKWindowsJob"
  const DefaultLinuxJobId: string := "3DSTKTURNJob"

  /** How long the Linux job is monitored. */
  const MonitorMinutes: int := 20

  /** The request's settings once the defaults are applied. */
  datatype PoolApp = PoolApp(
    signalingServer: Option<string>,
    signalingServerPort: Option<int>,
    linuxPoolId: string,
    windowsPoolId: string,
    linuxNodes: int,
    windowsNodes: int,
    windowsJobId: string,
    linuxJobId: string)

  function PoolAppOf(b: PoolAppBody): PoolApp {
    PoolApp(
      b.signalingServer,
      b.signalingServerPort,
      OrElse(b.linuxPoolId, DefaultLinuxPoolId),
      OrElse(b.windowsPoolId, DefaultWindowsPoolId),
      IntOrElse(b.numberOfDedicatedLinuxNodes, 1),
      IntOrElse(b.numberOfDedicatedWindowsNodes, 1),
      OrElse(b.windowsJobId, DefaultWindowsJobId),
      OrElse(b.linuxJobId, DefaultLinuxJobId))
  }

  predicate SignalingMissing(p: PoolApp) {
    IsNullOrEmpty(p.signalingServer) || p.signalingServerPort.None?
  }

  /** The Linux stage: pool, job and monitor; when the monitor reports failure, the
      job and then the pool are deleted. Answers whether the action goes on. */
  function LinuxStage(pools: seq<CloudPool>, p: PoolApp, linuxTasksSucceeded: bool): (seq<Call>, bool)
  {
    if FindPool(pools, p.linuxPoolId).Some? then ([], true)
    else
      var launch := [CreateLinuxPool(p.linuxPoolId, p.linuxNodes), CreateJob(p.linuxJobId, p.linuxPoolId),
                     MonitorJob(p.linuxJobId, MonitorMinutes)];
      if linuxTasksSucceeded then (launch, true)
      else (launch + [DeleteJob(p.linuxJobId), DeletePool(p.linuxPoolId)], false)
  }

  /** The create action (`api/BatchApi`). The Linux pool request does not add to the
      listing, so both lookups read the same pools. */
  function PoolAppEffect(pools: seq<CloudPool>, body: Option<PoolAppBody>, linuxTasksSucceeded: bool): Effect {
    if body.None? then Effect(Faulted(NullReference), [], [])
    else
      var p := PoolAppOf(body.value);
      if SignalingMissing(p) then Effect(Bad(ErrorNoSignalingFound), [], [])
      else
        var linux := LinuxStage(pools, p, linuxTasksSucceeded);
        if !linux.1 then Effect(Bad(LinuxTasksFailed), linux.0, [])
        else if FindPool(pools, p.windowsPoolId).Some? then Effect(Ok(), linux.0, [])
        else
          Effect(Ok(), linux.0 + [CreateWindowsPoolFor(p.linuxPoolId, p.windowsPoolId, p.windowsNodes,
                                                            p.signalingServer.value, p.signalingServerPort.value)], [])
  }

  /** A body without a signaling server and port is refused before any request. */
  lemma PoolAppChecksSignalingFirst(pools: seq<CloudPool>, body: Option<PoolAppBody>, linuxTasksSucceeded: bool)
    requires body.Some?
    ensures var e := PoolAppEffect(pools, body, linuxTasksSucceeded);
            e.reply == Bad(ErrorNoSignalingFound) <==> SignalingMissing(PoolAppOf(body.value))
    ensures var e := PoolAppEffect(pools, body, linuxTasksSucceeded);
            SignalingMissing(PoolAppOf(body.value)) ==> e.calls == []
  {
    assert ErrorNoSignalingFound != LinuxTasksFailed by {
      assert ErrorNoSignalingFound[0] != LinuxTasksFailed[0];
    }
  }

  /** A failed Linux job is rolled back, job first and pool second, as the last two
      requests, and the Windows pool is not requested. */
  lemma PoolAppRollsBackFailedLinuxJob(pools: seq<CloudPool>, body: Option<PoolAppBody>, linuxTasksSucceeded: bool)
    requires body.Some? && !SignalingMissing(PoolAppOf(body.value))
    ensures var e := PoolAppEffect(pools, body, linuxTasksSucceeded);
            var p := PoolAppOf(body.value);
            var n := |e.calls|;
            (e.reply == Bad(LinuxTasksFailed) <==> FindPool(pools, p.linuxPoolId).None? && !linuxTasksSucceeded)
            && (e.reply == Bad(LinuxTasksFailed) ==>
                  n == 5 && e.calls[n - 2] == DeleteJob(p.linuxJobId) && e.calls[n - 1] == DeletePool(p.linuxPoolId)
                  && forall k :: 0 <= k < n ==> !e.calls[k].CreateWindowsPoolFor?)
            && (e.reply != Bad(LinuxTasksFailed) ==>
                  e.reply == Ok() && forall k :: 0 <= k < n ==> !e.calls[k].DeleteJob? && !e.calls[k].DeletePool?)
  {
    var e := PoolAppEffect(pools, body, linuxTasksSucceeded);
    var p := PoolAppOf(body.value);
    assert Ok() != Bad(LinuxTasksFailed);
  }

  /** The Windows pool is requested exactly when the action gets past the Linux stage
      and no pool with its id is listed; the request names the Linux pool first and is
      the last one sent. */
  lemma PoolAppCreatesWindowsPoolOnlyIfAbsent(pools: seq<CloudPool>, body: Option<PoolAppBody>,
                                              linuxTasksSucceeded: bool)
    requires body.Some? && !SignalingMissing(PoolAppOf(body.value))
    ensures var e := PoolAppEffect(pools, body, linuxTasksSucceeded);
            var p := PoolAppOf(body.value);
            var created := |e.calls| > 0 && e.calls[|e.calls| - 1].CreateWindowsPoolFor?;
            (created <==> (FindPool(pools, p.linuxPoolId).Some? || linuxTasksSucceeded)
                          && FindPool(pools, p.windowsPoolId).None?)
            && (created ==> e.calls[|e.calls| - 1].linuxPoolId == p.linuxPoolId
                            && e.calls[|e.calls| - 1].windowsPoolId == p.windowsPoolId)
  {
  }

  /** An empty listing and a body with only the signaling fields: the default pools
      and Linux job, in order, with one node each. */
  lemma PoolAppDefaults(url: string, port: int)
    requires url != ""
    ensures var body := PoolAppBody(Some(url), Some(port), None, None, None, None, None, None);
            PoolAppEffect([], Some(body), true).calls
              == [CreateLinuxPool("LinuxPool", 1), CreateJob("3DSTKTURNJob", "LinuxPool"),
                  MonitorJob("3DSTKTURNJob", 20), CreateWindowsPoolFor("LinuxPool", "WindowsPool", 1, url, port)]
  {
  }

  class BatchApiController {
    const client: BatchClient

    constructor(client: BatchClient)
      ensures this.client == client
    {
      this.client := client;
    }

    /** The create action. */
    method Post(jsonBody: Option<PoolAppBody>, linuxTasksSucceeded: bool) returns (reply: Reply)
      modifies client
      ensures var e := PoolAppEffect(old(client.pools), jsonBody, linuxTasksSucceeded);
              reply == e.reply
              && client.log == old(client.log) + e.calls
              && client.pools == old(client.pools)
    {
      if jsonBody.None? {
        return Faulted(NullReference);
      }
      var p := PoolAppOf(jsonBody.value);
      if IsNullOrEmpty(p.signalingServer) || p.signalingServerPort.None? {
        return Bad(ErrorNoSignalingFound);
      }
      var linuxPool := FindPool(client.pools, p.linuxPoolId);
      if linuxPool.None? {
        client.Issue(CreateLinuxPool(p.linuxPoolId, p.linuxNodes));
        client.Issue(CreateJob(p.linuxJobId, p.linuxPoolId));
        client.Issue(MonitorJob(p.linuxJobId, MonitorMinutes));
        var taskResults := linuxTasksSucceeded;
        if !taskResults {
          client.Issue(DeleteJob(p.linuxJobId));
          client.Issue(DeletePool(p.linuxPoolId));
          return Bad(LinuxTasksFailed);
        }
      }
      var windowsPool := FindPool(client.pools, p.windowsPoolId);
      if windowsPool.None? {
        client.Issue(CreateWindowsPoolFor(p.linuxPoolId, p.windowsPoolId, p.windowsNodes,
                                          p.signalingServer.value, p.signalingServerPort.value));
      }
      return Ok();
    }
  }
}
