/** The Azure Batch service as the deployment code sees it: a listing of
    pools, each with its compute nodes, and a record of every mutating request
    the code issues (pool and job commits, resizes, deletes, task submissions,
    job termination).

    What the service answers is not computed here: each pool and node carries the
    states its successive refreshes report, and each commit is given the
    service's answer as an argument. */
module Batch {
  import opened CSharp

  /** `ComputeNodeState` */
  datatype NodeState =
    | Idle | Rebooting | Reimaging | Running | Unusable | Creating | Starting
    | WaitingForStartTask | StartTaskFailed | Unknown | LeavingPool | Offline | Preempted

  /** `AllocationState` of a pool */
  datatype AllocationState = Steady | Resizing | Stopping

  /** `TimeSpan.TicksPerHour` (one tick is 100 ns). */
  const TicksPerHour: int := 36_000_000_000

  /** The waiters give up once their stopwatch shows more than half an hour. */
  const WaitLimitTicks: int := TicksPerHour / 2

  predicate PastLimit(elapsed: int) {
    elapsed > WaitLimitTicks
  }

  /** What one refresh of a node reports, with the waiter's stopwatch reading at that point. */
  datatype NodeReading = NodeReading(state: NodeState, elapsed: int)

  /** What one refresh of a pool reports, with the waiter's stopwatch reading at that point. */
  datatype PoolReading = PoolReading(state: AllocationState, elapsed: int)

  /** Wall-clock time passes: the refreshes of a waiter end with the stopwatch past the limit. */
  predicate NodeReadingsEnd(rs: seq<NodeReading>) {
    |rs| > 0 && PastLimit(rs[|rs| - 1].elapsed)
  }

  predicate PoolReadingsEnd(rs: seq<PoolReading>) {
    |rs| > 0 && PastLimit(rs[|rs| - 1].elapsed)
  }

  /** A compute node: its id, the address its remote-login settings report, and what its refreshes report. */
  datatype ComputeNode = ComputeNode(id: string, ipAddress: string, refreshes: seq<NodeReading>)

  /** A pool: id, image offer, current dedicated node count, its nodes (`ListComputeNodes`)
      and what its refreshes report. */
  datatype CloudPool = CloudPool(
    id: string,
    offer: string,
    currentDedicatedNodes: int,
    nodes: seq<ComputeNode>,
    refreshes: seq<PoolReading>)

  predicate WellFormedNodes(nodes: seq<ComputeNode>) {
    forall i :: 0 <= i < |nodes| ==> NodeReadingsEnd(nodes[i].refreshes)
  }

  predicate WellFormedPool(p: CloudPool) {
    PoolReadingsEnd(p.refreshes) && WellFormedNodes(p.nodes)
  }

  predicate WellFormedPools(pools: seq<CloudPool>) {
    forall i :: 0 <= i < |pools| ==> WellFormedPool(pools[i])
  }

  /** The kind of pool the services commit, which fixes its image. */
  datatype PoolRole = TurnRole | RenderingRole

  const UbuntuOffer: string := "UbuntuServer"
  const WindowsOffer: string := "WindowsServer"

  function OfferOf(role: PoolRole): (offer: string)
    ensures offer == WindowsOffer <==> role == RenderingRole
  {
    match role
    case TurnRole => UbuntuOffer
    case RenderingRole => WindowsOffer
  }

  /** `BatchException.RequestInformation`: the error code, the error detail values
      and the reason phrase of the HTTP response. */
  datatype BatchError = BatchError(code: string, values: seq<string>, reasonPhrase: string)

  /** `BatchErrorCodeStrings.PoolExists` */
  const PoolExistsCode: string := "PoolExists"

  /** The service's answer to a pool commit. */
  datatype PoolCommit =
    | Allocated(currentDedicatedNodes: int, nodes: seq<ComputeNode>, refreshes: seq<PoolReading>)
    | PoolRejected(error: BatchError)

  predicate WellFormedCommit(c: PoolCommit) {
    c.Allocated? ==> PoolReadingsEnd(c.refreshes) && WellFormedNodes(c.nodes)
  }

  /** The service's answer to a job commit. */
  datatype JobCommit = JobAccepted | JobRejected(error: BatchError)

  /** A task: its id and the arguments its command line passes to the deploy script. */
  datatype CloudTask = CloudTask(id: string, arguments: seq<string>)

  /** A mutating request sent to the service. */
  datatype Call =
    | CreatePool(poolId: string, role: PoolRole, dedicatedNodes: int)
    | ResizePool(poolId: string, dedicatedNodes: int)
    | DeletePool(poolId: string)
    | RemoveNode(poolId: string, nodeId: string)
    | CreateJob(jobId: string, poolId: string)
    | AddTasks(jobId: string, tasks: seq<CloudTask>)
    | TerminateJob(jobId: string, reason: string)
    | DeleteJob(jobId: string)
    // Operations of service classes that are not part of this model,
    // recorded as they are requested.
    | CreateLinuxPool(poolId: string, dedicatedNodes: int)
    | CreateWindowsPool(poolId: string, dedicatedNodes: int)
    | CreateWindowsPoolFor(linuxPoolId: string, windowsPoolId: string, dedicatedNodes: int,
                           signalingServer: string, signalingServerPort: int)
    | AddWindowsTasks(turnPoolId: string, jobId: string, signalingServer: string,
                      signalingServerPort: int, serverCapacity: int)
    | MonitorJob(jobId: string, timeoutMinutes: int)

  /** `pools.FirstOrDefault(p => p.Id == id)` */
  function FindPool(pools: seq<CloudPool>, id: string): (r: Option<CloudPool>)
    ensures r.None? <==> forall i :: 0 <= i < |pools| ==> pools[i].id != id
    ensures r.Some? ==> r.value.id == id
    ensures r.Some? ==> exists i :: 0 <= i < |pools| && pools[i] == r.value
                                    && forall j :: 0 <= j < i ==> pools[j].id != id
  {
    if |pools| == 0 then None
    else if pools[0].id == id then Some(pools[0])
    else
      var r := FindPool(pools[1..], id);
      if r.Some? then
        var i :| 0 <= i < |pools[1..]| && pools[1..][i] == r.value
                 && forall j :: 0 <= j < i ==> pools[1..][j].id != id;
        assert pools[i + 1] == r.value;
        r
      else r
  }

  /** A pool found in a well-formed listing is well-formed. */
  lemma {:induction false} FindPoolWellFormed(pools: seq<CloudPool>, id: string)
    requires WellFormedPools(pools)
    ensures FindPool(pools, id).Some? ==> WellFormedPool(FindPool(pools, id).value)
  {
    if FindPool(pools, id).Some? {
      var i :| 0 <= i < |pools| && pools[i] == FindPool(pools, id).value
               && forall j :: 0 <= j < i ==> pools[j].id != id;
    }
  }

  /** Appending a pool to the listing leaves every earlier match in place. */
  lemma {:induction false} FindPoolAppend(pools: seq<CloudPool>, extra: seq<CloudPool>, id: string)
    ensures FindPool(pools, id).Some? ==> FindPool(pools + extra, id) == FindPool(pools, id)
    ensures FindPool(pools, id).None? ==> FindPool(pools + extra, id) == FindPool(extra, id)
  {
    if |pools| > 0 {
      assert (pools + extra)[1..] == pools[1..] + extra;
      FindPoolAppend(pools[1..], extra, id);
    } else {
      assert pools + extra == extra;
    }
  }

  /** The outcome of a pool commit. */
  datatype CommitResult = Committed(pool: CloudPool) | Rejected(error: BatchError)

  /** The pool a commit brings into the listing, or the error it is refused with. */
  function CommitOutcome(poolId: string, role: PoolRole, answer: PoolCommit): (r: CommitResult)
    ensures r.Committed? <==> answer.Allocated?
    ensures r.Committed? ==> r.pool.id == poolId && r.pool.offer == OfferOf(role)
                             && r.pool.nodes == answer.nodes && r.pool.refreshes == answer.refreshes
    ensures r.Rejected? ==> r.error == answer.error
  {
    match answer
    case Allocated(current, nodes, refreshes) => Committed(CloudPool(poolId, OfferOf(role), current, nodes, refreshes))
    case PoolRejected(error) => Rejected(error)
  }

  /** The pools a commit outcome adds to the listing. */
  function AddedBy(r: CommitResult): (added: seq<CloudPool>)
    ensures r.Committed? ==> added == [r.pool]
    ensures r.Rejected? ==> added == []
  {
    if r.Committed? then [r.pool] else []
  }

  /** The client the services hold: the pool listing and the requests issued so far. */
  class BatchClient {
    /** `ListPools()`, in listing order. */
    var pools: seq<CloudPool>
    /** Every mutating request issued through this client, oldest first. */
    var log: seq<Call>

    predicate Valid()
      reads this
    {
      WellFormedPools(pools)
    }

    constructor(pools: seq<CloudPool>)
      requires WellFormedPools(pools)
      ensures this.pools == pools && log == []
      ensures Valid()
    {
      this.pools := pools;
      log := [];
    }

    /** Sends a request whose effect on the listing is not modelled. */
    method Issue(c: Call)
      modifies this
      ensures pools == old(pools)
      ensures log == old(log) + [c]
    {
      log := log + [c];
    }

    /** `CloudPool.CommitAsync()` on a pool built for `role`. */
    method CommitPool(poolId: string, role: PoolRole, dedicatedNodes: int, answer: PoolCommit) returns (r: CommitResult)
      requires Valid() && WellFormedCommit(answer)
      modifies this
      ensures r == CommitOutcome(poolId, role, answer)
      ensures log == old(log) + [CreatePool(poolId, role, dedicatedNodes)]
      ensures pools == old(pools) + AddedBy(r)
      ensures Valid()
    {
      log := log + [CreatePool(poolId, role, dedicatedNodes)];
      r := CommitOutcome(poolId, role, answer);
      if r.Committed? {
        pools := pools + [r.pool];
      }
    }

    /** `CloudJob.CommitAsync()`: the error the service refuses it with, if any. */
    method CommitJob(jobId: string, poolId: string, answer: JobCommit) returns (error: Option<BatchError>)
      modifies this
      ensures error.Some? <==> answer.JobRejected?
      ensures error.Some? ==> error.value == answer.error
      ensures log == old(log) + [CreateJob(jobId, poolId)]
      ensures pools == old(pools)
    {
      log := log + [CreateJob(jobId, poolId)];
      error := if answer.JobRejected? then Some(answer.error) else None;
    }
  }
}
