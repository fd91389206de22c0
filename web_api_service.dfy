/** The web API's batch service: its settings, the configuration check, the
    rendering-capacity arithmetic, the pool and node waiters, and the pool, job
    and task requests it sends to the Batch service. */
module WebApiService {
  import opened CSharp
  import opened Models
  import opened Batch

  // ---------------------------------------------------------------- capacity

  /** Number of listed pools whose image offer is "WindowsServer". */
  function WindowsPoolCount(pools: seq<CloudPool>): (n: nat)
    ensures n <= |pools|
    ensures n == 0 <==> forall i :: 0 <= i < |pools| ==> pools[i].offer != WindowsOffer
  {
    if pools == [] then 0
    else
      var rest := WindowsPoolCount(pools[..|pools| - 1]);
      assert forall i :: 0 <= i < |pools| - 1 ==> pools[..|pools| - 1][i] == pools[i];
      rest + (if pools[|pools| - 1].offer == WindowsOffer then 1 else 0)
  }

  /** Counting over two listings adds up: only the Windows pools of each contribute. */
  lemma {:induction false} WindowsPoolCountAppend(a: seq<CloudPool>, b: seq<CloudPool>)
    ensures WindowsPoolCount(a + b) == WindowsPoolCount(a) + WindowsPoolCount(b)
    decreases |b|
  {
    if b == [] {
      assert a + b == a;
    } else {
      assert (a + b)[..|a + b| - 1] == a + b[..|b| - 1];
      WindowsPoolCountAppend(a, b[..|b| - 1]);
    }
  }

  /** `totalClients / capacity * 100 > threshold` in C#: the quotient truncates,
      the product wraps, `int.MinValue / -1` overflows and a zero capacity throws.
      A threshold of int.MaxValue switches the check off before the capacity is used. */
  function CapacityVerdict(totalClients: int, capacity: int, threshold: int): (r: Exceptional<bool>)
    requires IsInt32(totalClients) && IsInt32(capacity)
    ensures threshold == IntMax ==> r == Returns(false)
    ensures threshold != IntMax && capacity == 0 ==> r == Throws(DivideByZero)
    ensures threshold != IntMax && totalClients == IntMin && capacity == -1 ==> r == Throws(Overflow)
    ensures threshold != IntMax && 0 <= totalClients < capacity ==> r == Returns(0 > threshold)
    ensures threshold != IntMax && 0 <= totalClients && 0 < capacity && IsInt32(totalClients / capacity * 100)
            ==> r == Returns(totalClients / capacity * 100 > threshold)
  {
    if threshold == IntMax then Returns(false)
    else if capacity == 0 then Throws(DivideByZero)
    else if totalClients == IntMin && capacity == -1 then Throws(Overflow)
    else
      var quotient := TruncDiv(totalClients, capacity);
      SmallQuotient(totalClients, capacity);
      Returns(Wrap32(quotient * 100) > threshold)
  }

  lemma SmallQuotient(a: int, b: int)
    requires b != 0
    ensures 0 <= a < b ==> a / b == 0
  {
  }

  /** The comparison the check evidently means: the share of capacity in use,
      as a percentage, is above the threshold. */
  function IntendedCapacityVerdict(totalClients: int, capacity: int, threshold: int): (r: Exceptional<bool>)
    ensures threshold == IntMax ==> r == Returns(false)
    ensures threshold != IntMax && capacity == 0 ==> r == Throws(DivideByZero)
    ensures threshold != IntMax && capacity > 0 ==>
              r == Returns((totalClients * 100) as real / capacity as real > threshold as real)
  {
    if threshold == IntMax then Returns(false)
    else if capacity == 0 then Throws(DivideByZero)
    else
      var r := if capacity > 0 then totalClients * 100 > threshold * capacity
               else totalClients * 100 < threshold * capacity;
      PercentageComparison(totalClients, capacity, threshold);
      Returns(r)
  }

  /** Comparing a percentage with a threshold without dividing. */
  lemma PercentageComparison(totalClients: int, capacity: int, threshold: int)
    requires capacity != 0
    ensures capacity > 0 ==>
              ((totalClients * 100 > threshold * capacity) <==>
               ((totalClients * 100) as real / capacity as real > threshold as real))
  {
    if capacity > 0 {
      var q := (totalClients * 100) as real / capacity as real;
      assert q * capacity as real == (totalClients * 100) as real;
      assert (threshold * capacity) as real == threshold as real * capacity as real;
    }
  }

  /** 90 clients on a capacity of 100 is 90% of capacity, above a threshold of 80,
      yet the check as written answers false: the quotient 90 / 100 truncates to 0
      before it is scaled to a percentage. */
  lemma TruncatedPercentage()
    ensures CapacityVerdict(90, 100, 80) == Returns(false)
    ensures IntendedCapacityVerdict(90, 100, 80) == Returns(true)
  {
  }

  // ---------------------------------------------------------------- settings

  /** A setting read as the fields' initial values evidently intend: the initial value
      stays unless the key is present and parses as a 32-bit integer. */
  function IntendedSetting(configuration: map<string, string>, key: string, initial: int): (v: int)
    requires IsInt32(initial)
    ensures IsInt32(v)
    ensures key !in configuration ==> v == initial
    ensures key in configuration && ParseInt32(configuration[key]).Some? ==> v == ParseInt32(configuration[key]).value
    ensures key in configuration && ParseInt32(configuration[key]).None? ==> v == initial
    ensures TryParseInt(ConfigValue(configuration, key)).0 ==> v == ParsedSetting(configuration, key)
  {
    var parsed := TryParseInt(ConfigValue(configuration, key));
    if parsed.0 then parsed.1 else initial
  }

  // ---------------------------------------------------------------- waiters

  /** What a waiter reports: whether the state was reached, and how many refreshes it made. */
  datatype WaitOutcome = WaitOutcome(ready: bool, refreshes: nat)

  /** The node states in which the node waiter gives up. */
  predicate IsFailureState(s: NodeState) {
    s == Unknown || s == Unusable || s == Offline || s == StartTaskFailed || s == Preempted
  }

  /** A refresh after which the node waiter gives up: too late, or a failure state. */
  predicate NodeGivesUp(r: NodeReading) {
    PastLimit(r.elapsed) || IsFailureState(r.state)
  }

  /** A refresh after which the node waiter leaves its loop. */
  predicate NodeStops(r: NodeReading, desired: NodeState) {
    NodeGivesUp(r) || r.state == desired
  }

  /** The node waiter's course: it stops at the first refresh that gives up or shows
      the desired state, and it reports ready only in the second case. */
  function NodeWait(rs: seq<NodeReading>, desired: NodeState): (o: WaitOutcome)
    requires NodeReadingsEnd(rs)
    ensures 1 <= o.refreshes <= |rs|
    ensures forall j :: 0 <= j < o.refreshes - 1 ==> !NodeStops(rs[j], desired)
    ensures NodeStops(rs[o.refreshes - 1], desired)
    ensures o.ready <==> !NodeGivesUp(rs[o.refreshes - 1])
    ensures o.ready ==> rs[o.refreshes - 1].state == desired
    ensures IsFailureState(desired) ==> !o.ready
    decreases |rs|
  {
    if NodeGivesUp(rs[0]) then WaitOutcome(false, 1)
    else if rs[0].state == desired then WaitOutcome(true, 1)
    else
      var o := NodeWait(rs[1..], desired);
      WaitOutcome(o.ready, o.refreshes + 1)
  }

  /** The node waiter's outcome is fixed by the first refresh at which it stops. */
  lemma NodeWaitStopsAt(rs: seq<NodeReading>, desired: NodeState, i: nat)
    requires NodeReadingsEnd(rs) && i < |rs|
    requires forall j :: 0 <= j < i ==> !NodeStops(rs[j], desired)
    requires NodeStops(rs[i], desired)
    ensures NodeWait(rs, desired) == WaitOutcome(!NodeGivesUp(rs[i]), i + 1)
  {
    var o := NodeWait(rs, desired);
    assert NodeStops(rs[o.refreshes - 1], desired);
  }

  /** A refresh after which the pool waiter leaves its loop: too late, or the desired state. */
  predicate PoolStops(r: PoolReading, desired: AllocationState) {
    PastLimit(r.elapsed) || r.state == desired
  }

  /** The pool waiter's course: it stops at the first refresh past the limit or in the
      desired state, and reports ready only if that refresh was within the limit. */
  function PoolWait(rs: seq<PoolReading>, desired: AllocationState): (o: WaitOutcome)
    requires PoolReadingsEnd(rs)
    ensures 1 <= o.refreshes <= |rs|
    ensures forall j :: 0 <= j < o.refreshes - 1 ==> !PoolStops(rs[j], desired)
    ensures PoolStops(rs[o.refreshes - 1], desired)
    ensures o.ready <==> !PastLimit(rs[o.refreshes - 1].elapsed)
    ensures o.ready ==> rs[o.refreshes - 1].state == desired
    decreases |rs|
  {
    if PastLimit(rs[0].elapsed) then WaitOutcome(false, 1)
    else if rs[0].state == desired then WaitOutcome(true, 1)
    else
      var o := PoolWait(rs[1..], desired);
      WaitOutcome(o.ready, o.refreshes + 1)
  }

  /** The pool waiter's outcome is fixed by the first refresh at which it stops. */
  lemma PoolWaitStopsAt(rs: seq<PoolReading>, desired: AllocationState, i: nat)
    requires PoolReadingsEnd(rs) && i < |rs|
    requires forall j :: 0 <= j < i ==> !PoolStops(rs[j], desired)
    requires PoolStops(rs[i], desired)
    ensures PoolWait(rs, desired) == WaitOutcome(!PastLimit(rs[i].elapsed), i + 1)
  {
    var o := PoolWait(rs, desired);
    assert PoolStops(rs[o.refreshes - 1], desired);
  }

  // ---------------------------------------------------------------- error text

  /** Every error detail value, each followed by one space. */
  function ErrorValuesText(values: seq<string>): (text: string)
    ensures |text| >= |values|
    ensures text == "" <==> values == []
  {
    if values == [] then ""
    else ErrorValuesText(values[..|values| - 1]) + values[|values| - 1] + " "
  }

  /** The text of a list of values is the text of its parts, in order. */
  lemma {:induction false} ErrorValuesTextAppend(a: seq<string>, b: seq<string>)
    ensures ErrorValuesText(a + b) == ErrorValuesText(a) + ErrorValuesText(b)
    decreases |b|
  {
    if b == [] {
      assert a + b == a;
    } else {
      assert (a + b)[..|a + b| - 1] == a + b[..|b| - 1];
      ErrorValuesTextAppend(a, b[..|b| - 1]);
    }
  }

  /** The `stringError` loop of the create calls' error handler. */
  method JoinErrorValues(values: seq<string>) returns (stringError: string)
    ensures stringError == ErrorValuesText(values)
  {
    stringError := "";
    for i := 0 to |values|
      invariant stringError == ErrorValuesText(values[..i])
    {
      assert values[..i + 1][..i] == values[..i];
      stringError := stringError + values[i] + " ";
    }
    assert values[..|values|] == values;
  }

  /** What the create calls return: the committed pool, or the error text. */
  datatype CreatedPool = PoolCreated(pool: CloudPool) | CreateError(text: string)

  function CreatedPoolOf(c: CommitResult): (r: CreatedPool)
    ensures r.PoolCreated? <==> c.Committed?
    ensures r.PoolCreated? ==> r.pool == c.pool
    ensures r.CreateError? ==> r.text == ErrorValuesText(c.error.values)
  {
    match c
    case Committed(pool) => PoolCreated(pool)
    case Rejected(error) => CreateError(ErrorValuesText(error.values))
  }

  // ---------------------------------------------------------------- the service

  class BatchService {
    const dedicatedTurnNodes: int
    const dedicatedRenderingNodes: int
    const maxUsersPerRenderingNode: int
    const automaticScalingThreshold: int
    const signalingServerPort: int
    const signalingServerUrl: Option<string>
    const vnet: Option<string>
    const client: BatchClient

    /** Reads the settings. Each integer setting goes through `int.TryParse`,
        which writes 0 when the key is missing or does not parse, so the
        fields' initial values never survive. */
    constructor(configuration: map<string, string>, client: BatchClient)
      ensures dedicatedTurnNodes == ParsedSetting(configuration, "DedicatedTurnNodes")
      ensures dedicatedRenderingNodes == ParsedSetting(configuration, "DedicatedRenderingNodes")
      ensures maxUsersPerRenderingNode == ParsedSetting(configuration, "MaxUsersPerRenderingNode")
      ensures automaticScalingThreshold == ParsedSetting(configuration, "AutomaticScalingThreshold")
      ensures signalingServerPort == ParsedSetting(configuration, "SignalingServerPort")
      ensures signalingServerUrl == ConfigValue(configuration, "SignalingServerUrl")
      ensures vnet == ConfigValue(configuration, "Vnet")
      ensures this.client == client
    {
      dedicatedTurnNodes := ParsedSetting(configuration, "DedicatedTurnNodes");
      dedicatedRenderingNodes := ParsedSetting(configuration, "DedicatedRenderingNodes");
      maxUsersPerRenderingNode := ParsedSetting(configuration, "MaxUsersPerRenderingNode");
      automaticScalingThreshold := ParsedSetting(configuration, "AutomaticScalingThreshold");
      signalingServerPort := ParsedSetting(configuration, "SignalingServerPort");
      signalingServerUrl := ConfigValue(configuration, "SignalingServerUrl");
      vnet := ConfigValue(configuration, "Vnet");
      this.client := client;
    }

    predicate SignalingMissing() {
      IsNullOrEmpty(signalingServerUrl) || signalingServerPort == IntMax
    }

    predicate NodesMissing() {
      dedicatedRenderingNodes < 1 || dedicatedTurnNodes < 1
    }

    /** The first failing check's message, or "" when the settings are usable. */
    function HasValidConfiguration(): (m: string)
      ensures m == "" || IsValidationMessage(m)
      ensures m == "" <==> !SignalingMissing() && !NodesMissing() && maxUsersPerRenderingNode >= 1
      ensures m == ErrorNoSignalingFound <==> SignalingMissing()
      ensures m == ErrorOneDedicatedNodeRequired <==> !SignalingMissing() && NodesMissing()
      ensures m == ErrorOneMaxUserRequired <==>
                !SignalingMissing() && !NodesMissing() && maxUsersPerRenderingNode < 1
    {
      if SignalingMissing() then ErrorNoSignalingFound
      else if NodesMissing() then ErrorOneDedicatedNodeRequired
      else if maxUsersPerRenderingNode < 1 then ErrorOneMaxUserRequired
      else ""
    }

    /** Windows pools × rendering nodes per pool × users per node, in 32-bit arithmetic. */
    function GetMaxRenderingSlotsCapacity(pools: seq<CloudPool>): (capacity: int)
      ensures IsInt32(capacity)
      ensures capacity == Wrap32(WindowsPoolCount(pools) * dedicatedRenderingNodes * maxUsersPerRenderingNode)
      ensures IsInt32(WindowsPoolCount(pools) * dedicatedRenderingNodes * maxUsersPerRenderingNode) ==>
                capacity == WindowsPoolCount(pools) * dedicatedRenderingNodes * maxUsersPerRenderingNode
      ensures WindowsPoolCount(pools) == 0 ==> capacity == 0
    {
      var count := WindowsPoolCount(pools);
      Wrap32Product(count, dedicatedRenderingNodes, maxUsersPerRenderingNode);
      Wrap32(Wrap32(count * dedicatedRenderingNodes) * maxUsersPerRenderingNode)
    }

    /** Whether the listed rendering capacity is nearly used up, as written. */
    function ApproachingRenderingCapacity(totalClients: int, pools: seq<CloudPool>): (r: Exceptional<bool>)
      requires IsInt32(totalClients)
      ensures automaticScalingThreshold == IntMax ==> r == Returns(false)
      ensures automaticScalingThreshold != IntMax && WindowsPoolCount(pools) == 0 ==> r == Throws(DivideByZero)
      ensures r == CapacityVerdict(totalClients, GetMaxRenderingSlotsCapacity(pools), automaticScalingThreshold)
    {
      CapacityVerdict(totalClients, GetMaxRenderingSlotsCapacity(pools), automaticScalingThreshold)
    }

    /** `ResizeTurnPool`: resizes only a listed pool whose dedicated count differs. */
    method ResizeTurnPool(poolId: string, dedicatedNodes: int) returns (resized: bool)
      modifies client
      ensures resized <==> FindPool(old(client.pools), poolId).Some?
                           && FindPool(old(client.pools), poolId).value.currentDedicatedNodes != dedicatedNodes
      ensures client.log == old(client.log) + (if resized then [ResizePool(poolId, dedicatedNodes)] else [])
      ensures client.pools == old(client.pools)
    {
      var pool := FindPool(client.pools, poolId);
      if pool.None? {
        return false;
      }
      if pool.value.currentDedicatedNodes == dedicatedNodes {
        return false;
      }
      client.Issue(ResizePool(poolId, dedicatedNodes));
      return true;
    }

    /** `CreateTurnPool`: commits an Ubuntu pool of `dedicatedTurnNodes` nodes. */
    method CreateTurnPool(poolId: string, answer: PoolCommit) returns (r: CreatedPool)
      requires client.Valid() && WellFormedCommit(answer)
      modifies client
      ensures r == CreatedPoolOf(CommitOutcome(poolId, TurnRole, answer))
      ensures client.log == old(client.log) + [CreatePool(poolId, TurnRole, dedicatedTurnNodes)]
      ensures client.pools == old(client.pools) + AddedBy(CommitOutcome(poolId, TurnRole, answer))
      ensures client.Valid()
    {
      var c := client.CommitPool(poolId, TurnRole, dedicatedTurnNodes, answer);
      if c.Rejected? {
        var stringError := JoinErrorValues(c.error.values);
        return CreateError(stringError);
      }
      return PoolCreated(c.pool);
    }

    /** `CreateRenderingPool`: commits a Windows pool of `dedicatedRenderingNodes` nodes. */
    method CreateRenderingPool(poolId: string, answer: PoolCommit) returns (r: CreatedPool)
      requires client.Valid() && WellFormedCommit(answer)
      modifies client
      ensures r == CreatedPoolOf(CommitOutcome(poolId, RenderingRole, answer))
      ensures client.log == old(client.log) + [CreatePool(poolId, RenderingRole, dedicatedRenderingNodes)]
      ensures client.pools == old(client.pools) + AddedBy(CommitOutcome(poolId, RenderingRole, answer))
      ensures client.Valid()
    {
      var c := client.CommitPool(poolId, RenderingRole, dedicatedRenderingNodes, answer);
      if c.Rejected? {
        var stringError := JoinErrorValues(c.error.values);
        return CreateError(stringError);
      }
      return PoolCreated(c.pool);
    }

    /** `AwaitDesiredNodeState`: refresh, give up on a failure state or after half an hour,
        wait, and go round again until the node shows the desired state. */
    method AwaitDesiredNodeState(node: ComputeNode, desiredState: NodeState) returns (ready: bool, refreshes: nat)
      requires NodeReadingsEnd(node.refreshes)
      ensures WaitOutcome(ready, refreshes) == NodeWait(node.refreshes, desiredState)
    {
      var rs := node.refreshes;
      var i := 0;
      while true
        invariant 0 <= i < |rs|
        invariant forall j :: 0 <= j < i ==> !NodeStops(rs[j], desiredState)
        decreases |rs| - i
      {
        var reading := rs[i];
        if NodeStops(reading, desiredState) {
          NodeWaitStopsAt(rs, desiredState, i);
        }
        if NodeGivesUp(reading) {
          return false, i + 1;
        }
        if reading.state == desiredState {
          return true, i + 1;
        }
        i := i + 1;
      }
    }

    /** `AwaitDesiredPoolState`: wait, refresh, give up after half an hour, and go round
        again until the pool shows the desired allocation state. */
    method AwaitDesiredPoolState(pool: CloudPool, desiredState: AllocationState) returns (ready: bool, refreshes: nat)
      requires PoolReadingsEnd(pool.refreshes)
      ensures WaitOutcome(ready, refreshes) == PoolWait(pool.refreshes, desiredState)
    {
      var rs := pool.refreshes;
      var i := 0;
      while true
        invariant 0 <= i < |rs|
        invariant forall j :: 0 <= j < i ==> !PoolStops(rs[j], desiredState)
        decreases |rs| - i
      {
        var reading := rs[i];
        if PoolStops(reading, desiredState) {
          PoolWaitStopsAt(rs, desiredState, i);
        }
        if PastLimit(reading.elapsed) {
          return false, i + 1;
        }
        if reading.state == desiredState {
          return true, i + 1;
        }
        i := i + 1;
      }
    }

    /** `MonitorTasks`: terminates the job once, with the message that matches
        whether the tasks completed before the timeout. */
    method MonitorTasks(jobId: string, timedOut: bool) returns (allTasksSuccessful: bool)
      modifies client
      ensures allTasksSuccessful <==> !timedOut
      ensures client.log == old(client.log) + [TerminateJob(jobId, if timedOut then FailureMessage else SuccessMessage)]
      ensures client.pools == old(client.pools)
    {
      allTasksSuccessful := true;
      if timedOut {
        client.Issue(TerminateJob(jobId, FailureMessage));
        return false;
      }
      client.Issue(TerminateJob(jobId, SuccessMessage));
    }

    /** `CreateJobAsync`: "" once the job is committed, the response's reason phrase when refused. */
    method CreateJobAsync(jobId: string, poolId: string, answer: JobCommit) returns (text: string)
      modifies client
      ensures answer.JobAccepted? ==> text == ""
      ensures answer.JobRejected? ==> text == answer.error.reasonPhrase
      ensures client.log == old(client.log) + [CreateJob(jobId, poolId)]
      ensures client.pools == old(client.pools)
    {
      var error := client.CommitJob(jobId, poolId, answer);
      if error.Some? {
        return error.value.reasonPhrase;
      }
      return "";
    }

    /** A missing "SignalingServerPort" key leaves the port 0, not int.MaxValue, so the
        signaling check lets a configuration without a port through. */
    lemma OmittedPortPassesSignalingCheck(configuration: map<string, string>)
      requires signalingServerPort == ParsedSetting(configuration, "SignalingServerPort")
      requires signalingServerUrl == ConfigValue(configuration, "SignalingServerUrl")
      requires "SignalingServerPort" !in configuration
      requires "SignalingServerUrl" in configuration && configuration["SignalingServerUrl"] != ""
      ensures signalingServerPort == 0 && !SignalingMissing()
      ensures HasValidConfiguration() != ErrorNoSignalingFound
    {
    }

    /** A missing "AutomaticScalingThreshold" key leaves the threshold 0, not int.MaxValue,
        so the capacity check is switched on, and with no Windows pool listed it divides
        by zero where it should have answered false. */
    lemma OmittedThresholdEnablesScaling(configuration: map<string, string>, totalClients: int,
                                         pools: seq<CloudPool>)
      requires automaticScalingThreshold == ParsedSetting(configuration, "AutomaticScalingThreshold")
      requires "AutomaticScalingThreshold" !in configuration
      requires IsInt32(totalClients) && WindowsPoolCount(pools) == 0
      ensures automaticScalingThreshold == 0
      ensures ApproachingRenderingCapacity(totalClients, pools) == Throws(DivideByZero)
    {
    }

    /** With the settings read as evidently intended, a missing port is reported. */
    lemma IntendedOmittedPortRefused(configuration: map<string, string>)
      requires signalingServerPort == IntendedSetting(configuration, "SignalingServerPort", IntMax)
      requires "SignalingServerPort" !in configuration
      ensures HasValidConfiguration() == ErrorNoSignalingFound
    {
    }

    /** With the settings read as evidently intended, a missing threshold switches the
        capacity check off. */
    lemma IntendedOmittedThresholdSwitchesOff(configuration: map<string, string>, totalClients: int,
                                              pools: seq<CloudPool>)
      requires automaticScalingThreshold == IntendedSetting(configuration, "AutomaticScalingThreshold", IntMax)
      requires "AutomaticScalingThreshold" !in configuration
      requires IsInt32(totalClients)
      ensures ApproachingRenderingCapacity(totalClients, pools) == Returns(false)
    {
    }
  }
}
