/** The web API's deployment controller: the create action, which brings up a
    TURN pool (if needed) and a fresh rendering pool and waits for their nodes,
    and the delete-pool action. */
module WebApiDeploy {
  import opened CSharp
  import opened Models
  import opened Batch
  import opened Requests
  import opened WebApiService

  const DefaultTurnPoolId: string := "DefaultTurnPool"
  const DefaultRenderingPoolId: string := "DefaultRenderingPool"

  function TurnPoolIdOf(body: Option<CreateApiBody>): string {
    if body.Some? then OrElse(body.value.turnPoolId, DefaultTurnPoolId) else DefaultTurnPoolId
  }

  function RenderingPoolIdOf(body: Option<CreateApiBody>): string {
    if body.Some? then OrElse(body.value.renderingPoolId, DefaultRenderingPoolId) else DefaultRenderingPoolId
  }

  // ---------------------------------------------------------------- rendering nodes

  /** How many of the nodes reach Idle. */
  function ReadyCount(nodes: seq<ComputeNode>): (n: nat)
    requires WellFormedNodes(nodes)
    ensures n <= |nodes|
  {
    if nodes == [] then 0
    else
      var last := nodes[|nodes| - 1];
      ReadyCount(nodes[..|nodes| - 1]) + (if NodeWait(last.refreshes, Idle).ready then 1 else 0)
  }

  /** The removal requests for the nodes that do not reach Idle, in node order. */
  function Removals(poolId: string, nodes: seq<ComputeNode>): (calls: seq<Call>)
    requires WellFormedNodes(nodes)
    ensures |calls| + ReadyCount(nodes) == |nodes|
    ensures forall k :: 0 <= k < |calls| ==> calls[k].RemoveNode? && calls[k].poolId == poolId
  {
    if nodes == [] then []
    else
      var last := nodes[|nodes| - 1];
      Removals(poolId, nodes[..|nodes| - 1])
        + (if NodeWait(last.refreshes, Idle).ready then [] else [RemoveNode(poolId, last.id)])
  }

  /** Every node is counted ready exactly when every node reaches Idle. */
  lemma {:induction false} ReadyCountAll(nodes: seq<ComputeNode>)
    requires WellFormedNodes(nodes)
    ensures ReadyCount(nodes) == |nodes| <==> forall i :: 0 <= i < |nodes| ==> NodeWait(nodes[i].refreshes, Idle).ready
  {
    if nodes != [] {
      var init := nodes[..|nodes| - 1];
      ReadyCountAll(init);
      assert forall i :: 0 <= i < |init| ==> init[i] == nodes[i];
    }
  }

  /** Taking one more node into the prefix adds that node's count and removal. */
  lemma PrefixStep(poolId: string, nodes: seq<ComputeNode>, i: nat)
    requires WellFormedNodes(nodes) && i < |nodes|
    ensures WellFormedNodes(nodes[..i]) && WellFormedNodes(nodes[..i + 1])
    ensures var ready := NodeWait(nodes[i].refreshes, Idle).ready;
            ReadyCount(nodes[..i + 1]) == ReadyCount(nodes[..i]) + (if ready then 1 else 0)
            && Removals(poolId, nodes[..i + 1])
               == Removals(poolId, nodes[..i]) + (if ready then [] else [RemoveNode(poolId, nodes[i].id)])
  {
    assert nodes[..i + 1][..i] == nodes[..i];
  }

  // ---------------------------------------------------------------- the create action

  /** Where the pipeline stands after the TURN stage: going on with a pool, or finished. */
  datatype Stage = Proceed(pool: CloudPool, calls: seq<Call>, added: seq<CloudPool>) | Done(effect: Effect)
  {
    /** The requests the stage sent. */
    function Sent(): seq<Call> {
      if Proceed? then calls else effect.calls
    }

    /** The pools the stage added to the listing. */
    function Listed(): seq<CloudPool> {
      if Proceed? then added else effect.added
    }
  }

  /** The TURN stage: the listed pool, or a freshly committed one that reaches Steady. */
  function TurnStage(s: BatchService, pools: seq<CloudPool>, turnPoolId: string, answer: PoolCommit): (st: Stage)
    requires WellFormedPools(pools) && WellFormedCommit(answer)
    ensures st.Proceed? ==> WellFormedPool(st.pool)
    ensures FindPool(pools, turnPoolId).Some? ==> st == Proceed(FindPool(pools, turnPoolId).value, [], [])
    ensures FindPool(pools, turnPoolId).None? ==>
              (st.Proceed? ==> st.calls == [CreatePool(turnPoolId, TurnRole, s.dedicatedTurnNodes)])
              && (st.Done? ==> st.effect.calls == [CreatePool(turnPoolId, TurnRole, s.dedicatedTurnNodes)]
                               && st.effect.reply.Reply? && st.effect.reply.status == StatusBadRequest)
    ensures FindPool(pools, turnPoolId).None? ==>
              (st.Proceed? <==> answer.Allocated? && PoolWait(answer.refreshes, Steady).ready)
    ensures FindPool(pools, turnPoolId).None? && answer.PoolRejected? ==>
              st == Done(Effect(Bad(ErrorValuesText(answer.error.values)),
                                [CreatePool(turnPoolId, TurnRole, s.dedicatedTurnNodes)], []))
    ensures FindPool(pools, turnPoolId).None? && answer.Allocated? && !PoolWait(answer.refreshes, Steady).ready ==>
              st.Done? && st.effect.reply == Bad(ErrorToCreateTurnPool)
              && |st.effect.added| == 1 && st.effect.added[0].id == turnPoolId
    ensures st.Proceed? && FindPool(pools, turnPoolId).None? ==>
              answer.Allocated? && st.added == [st.pool] && st.pool.id == turnPoolId
              && st.pool.offer == UbuntuOffer && st.pool.nodes == answer.nodes
  {
    var listed := FindPool(pools, turnPoolId);
    FindPoolWellFormed(pools, turnPoolId);
    if listed.Some? then Proceed(listed.value, [], [])
    else
      var c := CommitOutcome(turnPoolId, TurnRole, answer);
      var calls := [CreatePool(turnPoolId, TurnRole, s.dedicatedTurnNodes)];
      if c.Rejected? then Done(Effect(Bad(ErrorValuesText(c.error.values)), calls, []))
      else if !PoolWait(c.pool.refreshes, Steady).ready then Done(Effect(Bad(ErrorToCreateTurnPool), calls, [c.pool]))
      else Proceed(c.pool, calls, [c.pool])
  }

  /** Whether the TURN pool's first node reaches Idle. */
  predicate TurnNodeReady(turnPool: CloudPool)
    requires WellFormedPool(turnPool)
  {
    turnPool.nodes != [] && NodeWait(turnPool.nodes[0].refreshes, Idle).ready
  }

  /** The rendering stage: commit, wait for Steady, then wait for every node. */
  function RenderingStage(s: BatchService, renderingPoolId: string, answer: PoolCommit): (e: Effect)
    requires WellFormedCommit(answer)
    ensures |e.calls| >= 1 && e.calls[0] == CreatePool(renderingPoolId, RenderingRole, s.dedicatedRenderingNodes)
    ensures forall k :: 0 < k < |e.calls| ==> e.calls[k].RemoveNode?
    ensures e.reply == Ok() <==> answer.Allocated? && PoolWait(answer.refreshes, Steady).ready
    ensures e.reply == Ok() ==>
              answer.Allocated? && |e.added| == 1 && e.added[0].id == renderingPoolId
              && e.added[0].offer == WindowsOffer && e.added[0].nodes == answer.nodes
              && e.calls[1..] == Removals(renderingPoolId, answer.nodes)
    ensures answer.PoolRejected? ==>
              e == Effect(Bad(ErrorValuesText(answer.error.values)),
                          [CreatePool(renderingPoolId, RenderingRole, s.dedicatedRenderingNodes)], [])
    ensures answer.Allocated? && !PoolWait(answer.refreshes, Steady).ready ==>
              e.reply == ServerError(ErrorToCreateRenderingPool)
              && e.calls == [CreatePool(renderingPoolId, RenderingRole, s.dedicatedRenderingNodes)]
              && |e.added| == 1 && e.added[0].id == renderingPoolId
  {
    var c := CommitOutcome(renderingPoolId, RenderingRole, answer);
    var calls := [CreatePool(renderingPoolId, RenderingRole, s.dedicatedRenderingNodes)];
    if c.Rejected? then Effect(Bad(ErrorValuesText(c.error.values)), calls, [])
    else if !PoolWait(c.pool.refreshes, Steady).ready then
      Effect(ServerError(ErrorToCreateRenderingPool), calls, [c.pool])
    else Effect(Ok(), calls + Removals(c.pool.id, c.pool.nodes), [c.pool])
  }

  /** The create action from the TURN stage on. */
  function DeployEffect(s: BatchService, pools: seq<CloudPool>, turnPoolId: string, renderingPoolId: string,
                        turnAnswer: PoolCommit, renderingAnswer: PoolCommit): (e: Effect)
    requires WellFormedPools(pools) && WellFormedCommit(turnAnswer) && WellFormedCommit(renderingAnswer)
    ensures var st := TurnStage(s, pools, turnPoolId, turnAnswer);
            (st.Done? ==> e == st.effect)
            && (st.Proceed? && !TurnNodeReady(st.pool) ==>
                  e == Effect(ServerError(ErrorTurnServerInvalid), st.calls, st.added))
            && (st.Proceed? && TurnNodeReady(st.pool) ==>
                  var r := RenderingStage(s, renderingPoolId, renderingAnswer);
                  e.reply == r.reply && e.calls == st.calls + r.calls && e.added == st.added + r.added)
    ensures e.reply == Ok() ==>
              TurnStage(s, pools, turnPoolId, turnAnswer).Proceed?
              && renderingAnswer.Allocated? && PoolWait(renderingAnswer.refreshes, Steady).ready
  {
    match TurnStage(s, pools, turnPoolId, turnAnswer)
    case Done(e) => e
    case Proceed(turnPool, calls, added) =>
      if !TurnNodeReady(turnPool) then Effect(ServerError(ErrorTurnServerInvalid), calls, added)
      else
        var r := RenderingStage(s, renderingPoolId, renderingAnswer);
        Effect(r.reply, calls + r.calls, added + r.added)
  }

  /** The create action: configuration, then the rendering pool id, then the pools. */
  function PostEffect(s: BatchService, pools: seq<CloudPool>, body: Option<CreateApiBody>,
                      turnAnswer: PoolCommit, renderingAnswer: PoolCommit): Effect
    requires WellFormedPools(pools) && WellFormedCommit(turnAnswer) && WellFormedCommit(renderingAnswer)
  {
    var check := s.HasValidConfiguration();
    if !IsNullOrWhiteSpace(Some(check)) then Effect(Bad(check), [], [])
    else if FindPool(pools, RenderingPoolIdOf(body)).Some? then Effect(Bad(ErrorRenderingPoolExists), [], [])
    else DeployEffect(s, pools, TurnPoolIdOf(body), RenderingPoolIdOf(body), turnAnswer, renderingAnswer)
  }

  /** A configuration message is never blank, so it always stops the create action. */
  lemma ValidationMessagesNotBlank(m: string)
    requires IsValidationMessage(m)
    ensures !IsNullOrWhiteSpace(Some(m))
  {
    if m == ErrorNoSignalingFound {
      assert m[0] == 'S';
    } else if m == ErrorOneDedicatedNodeRequired {
      assert m[0] == 'P';
    } else {
      assert m == ErrorOneMaxUserRequired;
      assert m[|m| - 1] == 'r';
    }
  }

  /** A configuration problem is answered with its message before anything is requested. */
  lemma PostChecksConfigurationFirst(s: BatchService, pools: seq<CloudPool>, body: Option<CreateApiBody>,
                                     turnAnswer: PoolCommit, renderingAnswer: PoolCommit)
    requires WellFormedPools(pools) && WellFormedCommit(turnAnswer) && WellFormedCommit(renderingAnswer)
    requires s.HasValidConfiguration() != ""
    ensures PostEffect(s, pools, body, turnAnswer, renderingAnswer) == Effect(Bad(s.HasValidConfiguration()), [], [])
  {
    ValidationMessagesNotBlank(s.HasValidConfiguration());
  }

  /** An existing rendering pool id is refused, and nothing is requested. */
  lemma PostRejectsExistingRenderingPool(s: BatchService, pools: seq<CloudPool>, body: Option<CreateApiBody>,
                                         turnAnswer: PoolCommit, renderingAnswer: PoolCommit)
    requires WellFormedPools(pools) && WellFormedCommit(turnAnswer) && WellFormedCommit(renderingAnswer)
    requires s.HasValidConfiguration() == ""
    requires FindPool(pools, RenderingPoolIdOf(body)).Some?
    ensures PostEffect(s, pools, body, turnAnswer, renderingAnswer) == Effect(Bad(ErrorRenderingPoolExists), [], [])
  {
  }

  /** Past the checks, the TURN pool is committed exactly when no pool with its id is
      listed, and it is then the first request. */
  lemma DeployCreatesTurnPoolOnlyIfAbsent(s: BatchService, pools: seq<CloudPool>, turnPoolId: string,
                                          renderingPoolId: string, turnAnswer: PoolCommit, renderingAnswer: PoolCommit)
    requires WellFormedPools(pools) && WellFormedCommit(turnAnswer) && WellFormedCommit(renderingAnswer)
    ensures var e := DeployEffect(s, pools, turnPoolId, renderingPoolId, turnAnswer, renderingAnswer);
            var create := CreatePool(turnPoolId, TurnRole, s.dedicatedTurnNodes);
            (create in e.calls <==> FindPool(pools, turnPoolId).None?)
            && (create in e.calls ==> e.calls[0] == create)
  {
    var create := CreatePool(turnPoolId, TurnRole, s.dedicatedTurnNodes);
    var st := TurnStage(s, pools, turnPoolId, turnAnswer);
    if st.Proceed? && TurnNodeReady(st.pool) {
      var r := RenderingStage(s, renderingPoolId, renderingAnswer);
      var e := DeployEffect(s, pools, turnPoolId, renderingPoolId, turnAnswer, renderingAnswer);
      assert e.calls == st.calls + r.calls;
      assert create !in r.calls;
    }
  }

  /** The TURN pool is committed exactly when the configuration is usable, the rendering
      pool id is free and no pool with the TURN id is listed; it is then the first request. */
  lemma PostCreatesTurnPoolOnlyIfAbsent(s: BatchService, pools: seq<CloudPool>, body: Option<CreateApiBody>,
                                        turnAnswer: PoolCommit, renderingAnswer: PoolCommit)
    requires WellFormedPools(pools) && WellFormedCommit(turnAnswer) && WellFormedCommit(renderingAnswer)
    ensures var e := PostEffect(s, pools, body, turnAnswer, renderingAnswer);
            var create := CreatePool(TurnPoolIdOf(body), TurnRole, s.dedicatedTurnNodes);
            (create in e.calls <==>
               s.HasValidConfiguration() == "" && FindPool(pools, RenderingPoolIdOf(body)).None?
               && FindPool(pools, TurnPoolIdOf(body)).None?)
            && (create in e.calls ==> e.calls[0] == create)
  {
    var check := s.HasValidConfiguration();
    if check != "" {
      ValidationMessagesNotBlank(check);
    } else if FindPool(pools, RenderingPoolIdOf(body)).None? {
      DeployCreatesTurnPoolOnlyIfAbsent(s, pools, TurnPoolIdOf(body), RenderingPoolIdOf(body), turnAnswer,
                                        renderingAnswer);
    }
  }

  /** The rendering pool is committed exactly when the TURN stage succeeded and the
      TURN pool's first node reached Idle. */
  lemma PostCreatesRenderingPoolOnlyAfterTurnNode(s: BatchService, pools: seq<CloudPool>, body: Option<CreateApiBody>,
                                                  turnAnswer: PoolCommit, renderingAnswer: PoolCommit)
    requires WellFormedPools(pools) && WellFormedCommit(turnAnswer) && WellFormedCommit(renderingAnswer)
    ensures var e := PostEffect(s, pools, body, turnAnswer, renderingAnswer);
            var st := TurnStage(s, pools, TurnPoolIdOf(body), turnAnswer);
            CreatePool(RenderingPoolIdOf(body), RenderingRole, s.dedicatedRenderingNodes) in e.calls <==>
              s.HasValidConfiguration() == "" && FindPool(pools, RenderingPoolIdOf(body)).None?
              && st.Proceed? && TurnNodeReady(st.pool)
  {
    var check := s.HasValidConfiguration();
    if check != "" {
      ValidationMessagesNotBlank(check);
    } else if FindPool(pools, RenderingPoolIdOf(body)).None? {
      var st := TurnStage(s, pools, TurnPoolIdOf(body), turnAnswer);
      var e := PostEffect(s, pools, body, turnAnswer, renderingAnswer);
      if st.Proceed? && TurnNodeReady(st.pool) {
        var r := RenderingStage(s, RenderingPoolIdOf(body), renderingAnswer);
        assert e.calls == st.calls + r.calls;
        assert e.calls[|st.calls|] == r.calls[0];
      }
    }
  }

  /** Past the checks, a successful create adds the Windows rendering pool, with the
      nodes the service allocated, to the listing last. */
  lemma DeployAddsRenderingPoolLast(s: BatchService, pools: seq<CloudPool>, turnPoolId: string,
                                    renderingPoolId: string, turnAnswer: PoolCommit, renderingAnswer: PoolCommit)
    requires WellFormedPools(pools) && WellFormedCommit(turnAnswer) && WellFormedCommit(renderingAnswer)
    requires DeployEffect(s, pools, turnPoolId, renderingPoolId, turnAnswer, renderingAnswer).reply == Ok()
    ensures var e := DeployEffect(s, pools, turnPoolId, renderingPoolId, turnAnswer, renderingAnswer);
            renderingAnswer.Allocated? && |e.added| >= 1
            && e.added[|e.added| - 1].id == renderingPoolId
            && e.added[|e.added| - 1].offer == WindowsOffer
            && e.added[|e.added| - 1].nodes == renderingAnswer.nodes
  {
    var st := TurnStage(s, pools, turnPoolId, turnAnswer);
    var r := RenderingStage(s, renderingPoolId, renderingAnswer);
    assert DeployEffect(s, pools, turnPoolId, renderingPoolId, turnAnswer, renderingAnswer).added == st.added + r.added;
  }

  /** Past the checks, a successful create's requests after the rendering pool commit
      are the removals of the rendering nodes that never reached Idle. */
  lemma DeployEndsWithRemovals(s: BatchService, pools: seq<CloudPool>, turnPoolId: string,
                               renderingPoolId: string, turnAnswer: PoolCommit, renderingAnswer: PoolCommit)
    requires WellFormedPools(pools) && WellFormedCommit(turnAnswer) && WellFormedCommit(renderingAnswer)
    requires DeployEffect(s, pools, turnPoolId, renderingPoolId, turnAnswer, renderingAnswer).reply == Ok()
    ensures renderingAnswer.Allocated?
    ensures var e := DeployEffect(s, pools, turnPoolId, renderingPoolId, turnAnswer, renderingAnswer);
            var removals := Removals(renderingPoolId, renderingAnswer.nodes);
            |removals| < |e.calls| && e.calls[|e.calls| - |removals|..] == removals
            && e.calls[|e.calls| - |removals| - 1] == CreatePool(renderingPoolId, RenderingRole, s.dedicatedRenderingNodes)
  {
    var st := TurnStage(s, pools, turnPoolId, turnAnswer);
    var r := RenderingStage(s, renderingPoolId, renderingAnswer);
    var create := CreatePool(renderingPoolId, RenderingRole, s.dedicatedRenderingNodes);
    var removals := Removals(renderingPoolId, renderingAnswer.nodes);
    assert r.calls == [create] + removals by {
      assert r.calls == [r.calls[0]] + r.calls[1..];
    }
    AppendAssociative(st.calls, [create], removals);
    AppendHalves(st.calls + [create], removals);
  }

  lemma AppendHalves<T>(a: seq<T>, b: seq<T>)
    ensures (a + b)[|a|..] == b
    ensures |a| > 0 ==> (a + b)[|a| - 1] == a[|a| - 1]
  {
  }

  /** A create answered Ok passed the checks and ran the deployment. */
  lemma PostSuccess(s: BatchService, pools: seq<CloudPool>, body: Option<CreateApiBody>,
                    turnAnswer: PoolCommit, renderingAnswer: PoolCommit)
    requires WellFormedPools(pools) && WellFormedCommit(turnAnswer) && WellFormedCommit(renderingAnswer)
    requires PostEffect(s, pools, body, turnAnswer, renderingAnswer).reply == Ok()
    ensures s.HasValidConfiguration() == "" && FindPool(pools, RenderingPoolIdOf(body)).None?
    ensures PostEffect(s, pools, body, turnAnswer, renderingAnswer)
            == DeployEffect(s, pools, TurnPoolIdOf(body), RenderingPoolIdOf(body), turnAnswer, renderingAnswer)
  {
    var check := s.HasValidConfiguration();
    if check != "" {
      ValidationMessagesNotBlank(check);
    }
  }

  class Cloud3DSTKController {
    const batchService: BatchService

    constructor(batchService: BatchService)
      ensures this.batchService == batchService
    {
      this.batchService := batchService;
    }

    /** Waits for each rendering node; `readyNodes` starts at the node count and drops
        by one, with a removal request, for each node that does not reach Idle. */
    method AwaitRenderingNodes(pool: CloudPool) returns (readyNodes: int)
      requires WellFormedNodes(pool.nodes)
      modifies batchService.client
      ensures readyNodes == ReadyCount(pool.nodes)
      ensures batchService.client.log == old(batchService.client.log) + Removals(pool.id, pool.nodes)
      ensures batchService.client.pools == old(batchService.client.pools)
    {
      var renderingNodes := pool.nodes;
      readyNodes := |renderingNodes|;
      for i := 0 to |renderingNodes|
        invariant WellFormedNodes(renderingNodes[..i])
        invariant readyNodes == |renderingNodes| - i + ReadyCount(renderingNodes[..i])
        invariant batchService.client.log == old(batchService.client.log) + Removals(pool.id, renderingNodes[..i])
        invariant batchService.client.pools == old(batchService.client.pools)
      {
        PrefixStep(pool.id, renderingNodes, i);
        var nodeResult, _ := batchService.AwaitDesiredNodeState(renderingNodes[i], Idle);
        if !nodeResult {
          batchService.client.Issue(RemoveNode(pool.id, renderingNodes[i].id));
          readyNodes := readyNodes - 1;
        }
      }
      assert renderingNodes[..|renderingNodes|] == renderingNodes;
    }

    /** Waits for a committed rendering pool to reach Steady, then for its nodes. */
    method AwaitRenderingPool(renderingPool: CloudPool) returns (reply: Reply)
      requires WellFormedPool(renderingPool)
      modifies batchService.client
      ensures var ready := PoolWait(renderingPool.refreshes, Steady).ready;
              reply == (if ready then Ok() else ServerError(ErrorToCreateRenderingPool))
              && batchService.client.log
                 == old(batchService.client.log) + (if ready then Removals(renderingPool.id, renderingPool.nodes) else [])
              && batchService.client.pools == old(batchService.client.pools)
    {
      var renderingCreationResult, refreshes := batchService.AwaitDesiredPoolState(renderingPool, Steady);
      if !renderingCreationResult {
        return ServerError(ErrorToCreateRenderingPool);
      }
      var readyNodes := AwaitRenderingNodes(renderingPool);
      return Ok();
    }

    /** Commits the rendering pool and waits for it and its nodes. */
    method DeployRenderingPool(renderingPoolId: string, renderingAnswer: PoolCommit) returns (reply: Reply)
      requires batchService.client.Valid() && WellFormedCommit(renderingAnswer)
      modifies batchService.client
      ensures var e := RenderingStage(batchService, renderingPoolId, renderingAnswer);
              reply == e.reply
              && batchService.client.log == old(batchService.client.log) + e.calls
              && batchService.client.pools == old(batchService.client.pools) + e.added
      ensures batchService.client.Valid()
    {
      ghost var log0 := batchService.client.log;
      var renderingPoolObject := batchService.CreateRenderingPool(renderingPoolId, renderingAnswer);
      if renderingPoolObject.CreateError? {
        return Bad(renderingPoolObject.text);
      }
      var renderingPool := renderingPoolObject.pool;
      ghost var created := [CreatePool(renderingPoolId, RenderingRole, batchService.dedicatedRenderingNodes)];
      ghost var c := CommitOutcome(renderingPoolId, RenderingRole, renderingAnswer);
      assert c.Committed? && c.pool == renderingPool;
      reply := AwaitRenderingPool(renderingPool);
      AppendAssociative(log0, created, if reply == Ok() then Removals(renderingPool.id, renderingPool.nodes) else []);
    }

    /** The TURN stage: looks the pool up and, when it is not listed, commits it and
        waits for Steady. Answers the pool to go on with, or the reply to give up with. */
    method ObtainTurnPool(turnPoolId: string, turnAnswer: PoolCommit) returns (turnPool: Option<CloudPool>, reply: Reply)
      requires batchService.client.Valid() && WellFormedCommit(turnAnswer)
      modifies batchService.client
      ensures var st := TurnStage(batchService, old(batchService.client.pools), turnPoolId, turnAnswer);
              (turnPool.Some? <==> st.Proceed?)
              && (turnPool.Some? ==> turnPool.value == st.pool)
              && (turnPool.None? ==> reply == st.effect.reply)
              && batchService.client.log == old(batchService.client.log) + st.Sent()
              && batchService.client.pools == old(batchService.client.pools) + st.Listed()
      ensures batchService.client.Valid()
    {
      var client := batchService.client;
      var listedTurnPool := FindPool(client.pools, turnPoolId);
      if listedTurnPool.Some? {
        return listedTurnPool, Ok();
      }
      var turnPoolObject := batchService.CreateTurnPool(turnPoolId, turnAnswer);
      if turnPoolObject.CreateError? {
        return None, Bad(turnPoolObject.text);
      }
      var created := turnPoolObject.pool;
      var turnCreationResult, _ := batchService.AwaitDesiredPoolState(created, Steady);
      if !turnCreationResult {
        return None, Bad(ErrorToCreateTurnPool);
      }
      return Some(created), Ok();
    }

    /** Waits for the TURN pool's first node to become Idle; false when the pool has no nodes. */
    method AwaitTurnNode(turnPool: CloudPool) returns (ready: bool)
      requires WellFormedPool(turnPool)
      ensures ready == TurnNodeReady(turnPool)
    {
      var turnNodes := turnPool.nodes;
      if |turnNodes| == 0 {
        return false;
      }
      var topNode := turnNodes[0];
      var refreshes;
      ready, refreshes := batchService.AwaitDesiredNodeState(topNode, Idle);
    }

    /** Finds or commits the TURN pool, waits for its first node, then deploys the rendering pool. */
    method DeployPools(turnPoolId: string, renderingPoolId: string, turnAnswer: PoolCommit, renderingAnswer: PoolCommit)
      returns (reply: Reply)
      requires batchService.client.Valid() && WellFormedCommit(turnAnswer) && WellFormedCommit(renderingAnswer)
      modifies batchService.client
      ensures var e := DeployEffect(batchService, old(batchService.client.pools), turnPoolId, renderingPoolId,
                                    turnAnswer, renderingAnswer);
              reply == e.reply
              && batchService.client.log == old(batchService.client.log) + e.calls
              && batchService.client.pools == old(batchService.client.pools) + e.added
      ensures batchService.client.Valid()
    {
      ghost var pools0, log0 := batchService.client.pools, batchService.client.log;
      ghost var st := TurnStage(batchService, pools0, turnPoolId, turnAnswer);
      ghost var e := DeployEffect(batchService, pools0, turnPoolId, renderingPoolId, turnAnswer, renderingAnswer);
      var turnPool;
      turnPool, reply := ObtainTurnPool(turnPoolId, turnAnswer);
      if turnPool.None? {
        assert e == st.effect;
        return;
      }
      assert batchService.client.log == log0 + st.calls && batchService.client.pools == pools0 + st.added;
      var ready := AwaitTurnNode(turnPool.value);
      if !ready {
        assert e == Effect(ServerError(ErrorTurnServerInvalid), st.calls, st.added);
        return ServerError(ErrorTurnServerInvalid);
      }
      ghost var r := RenderingStage(batchService, renderingPoolId, renderingAnswer);
      assert e == Effect(r.reply, st.calls + r.calls, st.added + r.added);
      ghost var log1, pools1 := batchService.client.log, batchService.client.pools;
      reply := DeployRenderingPool(renderingPoolId, renderingAnswer);
      AppendAssociative(log0, st.calls, r.calls);
      AppendAssociative(pools0, st.added, r.added);
    }

    /** The create action (`api/create`). */
    method Post(jsonBody: Option<CreateApiBody>, turnAnswer: PoolCommit, renderingAnswer: PoolCommit)
      returns (reply: Reply)
      requires batchService.client.Valid() && WellFormedCommit(turnAnswer) && WellFormedCommit(renderingAnswer)
      modifies batchService.client
      ensures var e := PostEffect(batchService, old(batchService.client.pools), jsonBody, turnAnswer, renderingAnswer);
              reply == e.reply
              && batchService.client.log == old(batchService.client.log) + e.calls
              && batchService.client.pools == old(batchService.client.pools) + e.added
      ensures batchService.client.Valid()
    {
      var turnPoolId := DefaultTurnPoolId;
      var renderingPoolId := DefaultRenderingPoolId;
      if jsonBody.Some? {
        turnPoolId := OrElse(jsonBody.value.turnPoolId, DefaultTurnPoolId);
        renderingPoolId := OrElse(jsonBody.value.renderingPoolId, DefaultRenderingPoolId);
      }

      var configurationCheckMessage := batchService.HasValidConfiguration();
      if !IsNullOrWhiteSpace(Some(configurationCheckMessage)) {
        return Bad(configurationCheckMessage);
      }

      if FindPool(batchService.client.pools, renderingPoolId).Some? {
        return Bad(ErrorRenderingPoolExists);
      }

      reply := DeployPools(turnPoolId, renderingPoolId, turnAnswer, renderingAnswer);
    }

    /** The delete-pool action (`api/deletePool`). */
    method DeletePool(jsonBody: Option<DeletePoolBody>) returns (reply: Reply)
      modifies batchService.client
      ensures var e := DeletePoolEffect(jsonBody, old(batchService.client.pools));
              reply == e.reply
              && batchService.client.log == old(batchService.client.log) + e.calls
              && batchService.client.pools == old(batchService.client.pools)
    {
      if jsonBody.None? {
        return Bad(ErrorBodyIsEmpty);
      }
      var poolId := jsonBody.value.poolId;
      if IsNullOrEmpty(poolId) {
        return Bad(ErrorPoolIdRequired);
      }
      var pool := FindPool(batchService.client.pools, poolId.value);
      if pool.None? {
        return Bad(ErrorPoolIdNotFound);
      }
      batchService.client.Issue(Batch.DeletePool(poolId.value));
      return Ok();
    }
  }
}
