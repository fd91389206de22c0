/** The JSON bodies the controllers accept, with every field optional (a missing
    key or a null value), and what a controller action does to the Batch service. */
module Requests {
  import opened CSharp
  import opened Models
  import opened Batch

  /** Body of the web API's create request. */
  datatype CreateApiBody = CreateApiBody(turnPoolId: Option<string>, renderingPoolId: Option<string>)

  /** Body of a delete-pool request. */
  datatype DeletePoolBody = DeletePoolBody(poolId: Option<string>)

  /** Body of the function app's create requests. */
  datatype DeploymentBody = DeploymentBody(
    signalingServer: Option<string>,
    signalingServerPort: Option<int>,
    turnPoolId: Option<string>,
    renderingPoolId: Option<string>,
    dedicatedTurnNodes: Option<int>,
    dedicatedRenderingNodes: Option<int>,
    maxUsersPerRenderingNode: Option<int>,
    renderingJobId: Option<string>)

  /** Body of the pool web app's create request. */
  datatype PoolAppBody = PoolAppBody(
    signalingServer: Option<string>,
    signalingServerPort: Option<int>,
    linuxPoolId: Option<string>,
    windowsPoolId: Option<string>,
    numberOfDedicatedLinuxNodes: Option<int>,
    numberOfDedicatedWindowsNodes: Option<int>,
    windowsJobId: Option<string>,
    linuxJobId: Option<string>)

  /** Body of the orchestrator's report; `servers` is a JSON object, kept as its
      properties (name and server) in document order. */
  datatype OrchestratorBody = OrchestratorBody(
    totalSessions: Option<int>,
    totalSlots: Option<int>,
    servers: Option<seq<(string, ConnectedServer)>>)

  /** `field ?? fallback` for an integer field. */
  function IntOrElse(v: Option<int>, fallback: int): int {
    if v.Some? then v.value else fallback
  }

  /** What one controller action does: its reply, the requests it sends in order,
      and the pools those requests add to the listing. */
  datatype Effect = Effect(reply: Reply, calls: seq<Call>, added: seq<CloudPool>)

  /** The delete-pool action, shared by the web API and the function app:
      body, then pool id, then listing; exactly one delete on success. */
  function DeletePoolEffect(body: Option<DeletePoolBody>, pools: seq<CloudPool>): (e: Effect)
    ensures e.added == []
    ensures body.None? ==> e == Effect(Bad(ErrorBodyIsEmpty), [], [])
    ensures body.Some? && IsNullOrEmpty(body.value.poolId) ==> e == Effect(Bad(ErrorPoolIdRequired), [], [])
    ensures body.Some? && !IsNullOrEmpty(body.value.poolId) && FindPool(pools, body.value.poolId.value).None?
            ==> e == Effect(Bad(ErrorPoolIdNotFound), [], [])
    ensures e.reply == Ok() <==> e.calls != []
  {
    if body.None? then Effect(Bad(ErrorBodyIsEmpty), [], [])
    else if IsNullOrEmpty(body.value.poolId) then Effect(Bad(ErrorPoolIdRequired), [], [])
    else if FindPool(pools, body.value.poolId.value).None? then Effect(Bad(ErrorPoolIdNotFound), [], [])
    else Effect(Ok(), [DeletePool(body.value.poolId.value)], [])
  }

  /** A delete is requested only for a listed pool, once, and only on success. */
  lemma DeleteOnlyListedPool(body: Option<DeletePoolBody>, pools: seq<CloudPool>)
    ensures var e := DeletePoolEffect(body, pools);
            e.calls != [] ==>
              body.Some? && body.value.poolId.Some? && body.value.poolId.value != ""
              && e.calls == [DeletePool(body.value.poolId.value)]
              && exists i :: 0 <= i < |pools| && pools[i].id == body.value.poolId.value
  {
  }
}
