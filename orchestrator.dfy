/** The orchestrator: it receives the signaling server's session report, asks the
    Batch service for an autoscaling verdict, and acts on it. An upscale verdict
    forwards a create request for a fresh rendering pool; a downscale verdict arms a
    timer whose handlers, when it fires, ask again and forward a pool deletion. */
module Orchestrator {
  import opened CSharp
  import opened Models
  import opened Requests
  import WebApiDeploy

  /** The configuration key of the downscale delay, in minutes. */
  const DownscaleTimeoutKey: string := "AutomaticDownscaleTimeoutMinutes"

  const MillisecondsPerMinute: int := 60000

  /** What `GetAutoscalingStatus` answers: a status and, through its out parameter,
      the pool to delete. */
  datatype Verdict = Verdict(status: AutoscalingStatus, deletePoolId: string)

  /** What an Elapsed handler captured when it was attached. */
  datatype Snapshot = Snapshot(totalClients: int, servers: seq<ConnectedServer>)

  /** A request the orchestrator hands to the deployment controller. */
  datatype Forwarded =
    | ForwardCreate(create: CreateApiBody)
    | ForwardDelete(delete: DeletePoolBody)

  /** The downscale timer's state: running or not, and its Elapsed handlers. */
  datatype TimerState = TimerState(enabled: bool, handlers: seq<Snapshot>)

  /** The timer's interval, if the configuration asks for one: a delay of more than
      zero minutes, in milliseconds. */
  function DownscaleInterval(configuration: map<string, string>): (interval: Option<int>)
    ensures interval.Some? ==> interval.value >= MillisecondsPerMinute
                               && interval.value % MillisecondsPerMinute == 0
    ensures interval.Some? <==> ParsedSetting(configuration, DownscaleTimeoutKey) > 0
  {
    var minutes := ParsedSetting(configuration, DownscaleTimeoutKey);
    if minutes > 0 then Some(minutes * MillisecondsPerMinute) else None
  }

  /** A configured number of minutes reads back as that many minutes; a missing
      setting, or one that is not a positive number, gives no timer. */
  lemma DownscaleIntervalOf(configuration: map<string, string>, minutes: int)
    requires IsInt32(minutes)
    ensures DownscaleTimeoutKey !in configuration ==> DownscaleInterval(configuration) == None
    ensures DownscaleTimeoutKey in configuration && configuration[DownscaleTimeoutKey] == FormatInt(minutes) ==>
              DownscaleInterval(configuration) == if minutes > 0 then Some(minutes * MillisecondsPerMinute) else None
  {
    ParseFormatRoundTrip(minutes);
  }

  /** The servers in the report, in order, without their property names. */
  function ServerValues(serversList: seq<(string, ConnectedServer)>): (servers: seq<ConnectedServer>)
    ensures |servers| == |serversList|
    ensures forall i :: 0 <= i < |servers| ==> servers[i] == serversList[i].1
  {
    seq(|serversList|, i requires 0 <= i < |serversList| => serversList[i].1)
  }

  /** What the report action answers and does. */
  datatype Outcome = Outcome(reply: Reply, timer: TimerState, forwarded: seq<Forwarded>)

  /** The report action, for a timer that exists or not and a fresh pool id for an
      upscale. */
  function ReportEffect(hasTimer: bool, timer: TimerState, evaluate: (int, seq<ConnectedServer>) -> Verdict,
                        body: Option<OrchestratorBody>, newPoolId: string): Outcome
  {
    if body.None? then Outcome(Bad(ErrorBodyIsEmpty), timer, [])
    else if body.value.servers.None? then Outcome(Faulted(NullReference), timer, [])
    else if body.value.totalSessions.None? || body.value.totalSlots.None? then
      Outcome(Reply(StatusBadRequest, None), timer, [])
    else
      var snapshot := Snapshot(body.value.totalSessions.value, ServerValues(body.value.servers.value));
      var verdict := evaluate(snapshot.totalClients, snapshot.servers);
      match verdict.status
      case NotEnabled => Outcome(Bad(WarningNoAutoscaling), timer, [])
      case UpscaleRenderingPool =>
        Outcome(Ok(), if hasTimer && timer.enabled then timer.(enabled := false) else timer,
                [ForwardCreate(CreateApiBody(None, Some(newPoolId)))])
      case DownscaleRenderingPool =>
        Outcome(Ok(), if hasTimer && !timer.enabled then TimerState(true, timer.handlers + [snapshot]) else timer, [])
      case OK => Outcome(Ok(), if hasTimer && timer.enabled then timer.(enabled := false) else timer, [])
      case UpscaleTurnPool => Outcome(Ok(), timer, [])
      case DownscaleTurnPool => Outcome(Ok(), timer, [])
  }

  /** A timer that does not exist is never running and has no handlers; a running
      timer has at least the handler attached when it was started. */
  predicate TimerConsistent(hasTimer: bool, timer: TimerState) {
    (!hasTimer ==> !timer.enabled && timer.handlers == [])
    && (timer.enabled ==> timer.handlers != [])
  }

  /** What each report answers, and how it leaves the timer: refusals touch nothing;
      an upscale or an OK verdict leaves the timer stopped; a downscale verdict arms a
      stopped timer with one more handler and leaves a running one alone. */
  lemma ReportVerdicts(hasTimer: bool, timer: TimerState, evaluate: (int, seq<ConnectedServer>) -> Verdict,
                       body: Option<OrchestratorBody>, newPoolId: string)
    requires TimerConsistent(hasTimer, timer)
    ensures var e := ReportEffect(hasTimer, timer, evaluate, body, newPoolId);
            TimerConsistent(hasTimer, e.timer)
            && (body.None? ==> e == Outcome(Bad(ErrorBodyIsEmpty), timer, []))
            && (body.Some? && body.value.servers.None? ==> e == Outcome(Faulted(NullReference), timer, []))
            && (e.reply == Ok() <==>
                  body.Some? && body.value.servers.Some? && body.value.totalSessions.Some? && body.value.totalSlots.Some?
                  && evaluate(body.value.totalSessions.value, ServerValues(body.value.servers.value)).status != NotEnabled)
            && (e.reply != Ok() ==> e.timer == timer && e.forwarded == [])
            && (body.Some? && body.value.servers.Some?
                && (body.value.totalSessions.None? || body.value.totalSlots.None?) ==>
                  e == Outcome(Reply(StatusBadRequest, None), timer, []))
            && (body.Some? && body.value.servers.Some? && body.value.totalSessions.Some? && body.value.totalSlots.Some?
                && evaluate(body.value.totalSessions.value, ServerValues(body.value.servers.value)).status == NotEnabled ==>
                  e == Outcome(Bad(WarningNoAutoscaling), timer, []))
  {
  }

  /** The verdict's effect on the timer and the forwarded requests, for a report that
      reaches the verdict. */
  lemma ReportActions(hasTimer: bool, timer: TimerState, evaluate: (int, seq<ConnectedServer>) -> Verdict,
                      body: OrchestratorBody, newPoolId: string)
    requires TimerConsistent(hasTimer, timer)
    requires body.servers.Some? && body.totalSessions.Some? && body.totalSlots.Some?
    ensures var e := ReportEffect(hasTimer, timer, evaluate, Some(body), newPoolId);
            var snapshot := Snapshot(body.totalSessions.value, ServerValues(body.servers.value));
            var status := evaluate(snapshot.totalClients, snapshot.servers).status;
            (status == UpscaleRenderingPool ==>
               !e.timer.enabled && e.timer.handlers == timer.handlers
               && e.forwarded == [ForwardCreate(CreateApiBody(None, Some(newPoolId)))])
            && (status == OK ==> e.timer == timer.(enabled := false) && e.forwarded == [])
            && (status == DownscaleRenderingPool && hasTimer && !timer.enabled ==>
                  e.timer == TimerState(true, timer.handlers + [snapshot]) && e.forwarded == [])
            && (status == DownscaleRenderingPool && !(hasTimer && !timer.enabled) ==> e.timer == timer)
            && (status == DownscaleRenderingPool ==> e.forwarded == [])
  {
  }

  /** The create request an upscale forwards names only the fresh rendering pool; the
      deployment controller resolves the TURN pool to its default. */
  lemma UpscaleUsesDefaultTurnPool(newPoolId: string)
    ensures var body := Some(CreateApiBody(None, Some(newPoolId)));
            WebApiDeploy.RenderingPoolIdOf(body) == newPoolId
            && WebApiDeploy.TurnPoolIdOf(body) == WebApiDeploy.DefaultTurnPoolId
  {
  }

  /** The deletions the handlers forward when the timer fires, in handler order: one
      for each handler whose snapshot now gets a downscale verdict. */
  function Deletions(evaluate: (int, seq<ConnectedServer>) -> Verdict, handlers: seq<Snapshot>): seq<Forwarded> {
    if handlers == [] then []
    else
      var last := handlers[|handlers| - 1];
      var verdict := evaluate(last.totalClients, last.servers);
      Deletions(evaluate, handlers[..|handlers| - 1])
        + (if verdict.status == DownscaleRenderingPool then [ForwardDelete(DeletePoolBody(Some(verdict.deletePoolId)))]
           else [])
  }

  /** Every forwarded deletion names the pool a handler's verdict chose, a handler
      forwards at most one, and there is one exactly when some verdict says downscale. */
  lemma {:induction false} DeletionsFromVerdicts(evaluate: (int, seq<ConnectedServer>) -> Verdict,
                                                 handlers: seq<Snapshot>)
    ensures var d := Deletions(evaluate, handlers);
            |d| <= |handlers|
            && (forall k :: 0 <= k < |d| ==>
                  exists i :: 0 <= i < |handlers|
                              && evaluate(handlers[i].totalClients, handlers[i].servers).status == DownscaleRenderingPool
                              && d[k] == ForwardDelete(DeletePoolBody(Some(
                                           evaluate(handlers[i].totalClients, handlers[i].servers).deletePoolId))))
            && (d != [] <==>
                  exists i :: 0 <= i < |handlers|
                              && evaluate(handlers[i].totalClients, handlers[i].servers).status == DownscaleRenderingPool)
  {
    if handlers != [] {
      var init := handlers[..|handlers| - 1];
      DeletionsFromVerdicts(evaluate, init);
      var d := Deletions(evaluate, handlers);
      var d0 := Deletions(evaluate, init);
      forall k | 0 <= k < |d|
        ensures exists i :: 0 <= i < |handlers|
                            && evaluate(handlers[i].totalClients, handlers[i].servers).status == DownscaleRenderingPool
                            && d[k] == ForwardDelete(DeletePoolBody(Some(
                                         evaluate(handlers[i].totalClients, handlers[i].servers).deletePoolId)))
      {
        if k < |d0| {
          var i :| 0 <= i < |init|
                   && evaluate(init[i].totalClients, init[i].servers).status == DownscaleRenderingPool
                   && d0[k] == ForwardDelete(DeletePoolBody(Some(evaluate(init[i].totalClients, init[i].servers).deletePoolId)));
          assert handlers[i] == init[i];
        } else {
          assert handlers[|handlers| - 1] == handlers[|handlers| - 1];
        }
      }
      if exists i :: 0 <= i < |handlers|
                     && evaluate(handlers[i].totalClients, handlers[i].servers).status == DownscaleRenderingPool {
        var i :| 0 <= i < |handlers|
                 && evaluate(handlers[i].totalClients, handlers[i].servers).status == DownscaleRenderingPool;
        if i < |init| {
          assert init[i] == handlers[i];
        }
      }
    }
  }

  /** A step of the controller's life: a report, or the timer firing. */
  datatype Event =
    | Report(body: Option<OrchestratorBody>, newPoolId: string)
    | Fire

  /** The timer after one event; the timer fires only while it is running. */
  function Apply(hasTimer: bool, evaluate: (int, seq<ConnectedServer>) -> Verdict, timer: TimerState,
                 event: Event): TimerState
  {
    match event
    case Report(body, newPoolId) => ReportEffect(hasTimer, timer, evaluate, body, newPoolId).timer
    case Fire => if timer.enabled then timer.(enabled := false) else timer
  }

  /** The timer after a sequence of events. */
  function Run(hasTimer: bool, evaluate: (int, seq<ConnectedServer>) -> Verdict, timer: TimerState,
               events: seq<Event>): TimerState
  {
    if events == [] then timer
    else Apply(hasTimer, evaluate, Run(hasTimer, evaluate, timer, events[..|events| - 1]), events[|events| - 1])
  }

  /** Handlers are only ever appended, at most one per event, and a controller without
      a timer never gets one. */
  lemma {:induction false} HandlersOnlyAppended(hasTimer: bool, evaluate: (int, seq<ConnectedServer>) -> Verdict,
                                                timer: TimerState, events: seq<Event>)
    requires TimerConsistent(hasTimer, timer)
    ensures var after := Run(hasTimer, evaluate, timer, events);
            TimerConsistent(hasTimer, after)
            && timer.handlers <= after.handlers
            && |after.handlers| <= |timer.handlers| + |events|
  {
    if events != [] {
      var before := Run(hasTimer, evaluate, timer, events[..|events| - 1]);
      HandlersOnlyAppended(hasTimer, evaluate, timer, events[..|events| - 1]);
      var last := events[|events| - 1];
      if last.Report? {
        ReportVerdicts(hasTimer, before, evaluate, last.body, last.newPoolId);
        if last.body.Some? && last.body.value.servers.Some? && last.body.value.totalSessions.Some?
           && last.body.value.totalSlots.Some? {
          ReportActions(hasTimer, before, evaluate, last.body.value, last.newPoolId);
        }
      }
    }
  }

  class OrchestratorController {
    /** `GetAutoscalingStatus` of the Batch service. */
    const evaluate: (int, seq<ConnectedServer>) -> Verdict
    /** The downscale timer's interval in milliseconds; None when there is no timer. */
    const timerInterval: Option<int>
    var enabled: bool
    var handlers: seq<Snapshot>
    /** The requests handed to the deployment controller, in order. */
    var forwarded: seq<Forwarded>

    predicate Valid()
      reads this
    {
      TimerConsistent(timerInterval.Some?, TimerState(enabled, handlers))
    }

    /** The constructor with a configuration, through `InitBatchService`. */
    constructor(configuration: map<string, string>, evaluate: (int, seq<ConnectedServer>) -> Verdict)
      ensures this.evaluate == evaluate
      ensures timerInterval == DownscaleInterval(configuration)
      ensures !enabled && handlers == [] && forwarded == []
      ensures Valid()
    {
      this.evaluate := evaluate;
      var downscaleTimeoutMinutes := ParsedSetting(configuration, DownscaleTimeoutKey);
      if downscaleTimeoutMinutes > 0 {
        timerInterval := Some(downscaleTimeoutMinutes * MillisecondsPerMinute);
      } else {
        timerInterval := None;
      }
      enabled := false;
      handlers := [];
      forwarded := [];
    }

    /** The servers of the report, in order. */
    static method CollectServers(serversList: seq<(string, ConnectedServer)>)
      returns (connectedServers: seq<ConnectedServer>)
      ensures |connectedServers| == |serversList|
      ensures forall i :: 0 <= i < |serversList| ==> connectedServers[i] == serversList[i].1
    {
      connectedServers := [];
      if |serversList| > 0 {
        for i := 0 to |serversList|
          invariant |connectedServers| == i
          invariant forall j :: 0 <= j < i ==> connectedServers[j] == serversList[j].1
        {
          connectedServers := connectedServers + [serversList[i].1];
        }
      }
    }

    /** The report action (`api/orchestrator`); `newPoolId` is the GUID an upscale
        names its rendering pool with. */
    method Post(jsonBody: Option<OrchestratorBody>, newPoolId: string) returns (reply: Reply)
      requires Valid()
      modifies this
      ensures var e := ReportEffect(timerInterval.Some?, old(TimerState(enabled, handlers)), evaluate, jsonBody, newPoolId);
              reply == e.reply
              && TimerState(enabled, handlers) == e.timer
              && forwarded == old(forwarded) + e.forwarded
      ensures Valid()
    {
      ghost var timer := TimerState(enabled, handlers);
      ReportVerdicts(timerInterval.Some?, timer, evaluate, jsonBody, newPoolId);
      if jsonBody.None? {
        return Bad(ErrorBodyIsEmpty);
      }
      var body := jsonBody.value;
      if body.servers.None? {
        return Faulted(NullReference);
      }
      var connectedServers := CollectServers(body.servers.value);
      assert connectedServers == ServerValues(body.servers.value);
      if body.totalSessions.None? || body.totalSlots.None? {
        return Reply(StatusBadRequest, None);
      }
      var totalClients := body.totalSessions.value;
      var verdict := evaluate(totalClients, connectedServers);
      match verdict.status {
      case NotEnabled =>
        return Bad(WarningNoAutoscaling);
      case UpscaleRenderingPool =>
        if timerInterval.Some? && enabled {
          enabled := false;
        }
        forwarded := forwarded + [ForwardCreate(CreateApiBody(None, Some(newPoolId)))];
      case DownscaleRenderingPool =>
        if timerInterval.Some? && !enabled {
          handlers := handlers + [Snapshot(totalClients, connectedServers)];
          enabled := true;
        }
      case OK =>
        if timerInterval.Some? && enabled {
          enabled := false;
        }
      case UpscaleTurnPool =>
      case DownscaleTurnPool =>
      }
      return Ok();
    }

    /** `DownscaleElapsedMethod` for one handler's snapshot. */
    method DownscaleElapsed(totalClients: int, servers: seq<ConnectedServer>)
      modifies this
      ensures forwarded == old(forwarded) + Deletions(evaluate, [Snapshot(totalClients, servers)])
      ensures !enabled && handlers == old(handlers)
    {
      var verdict := evaluate(totalClients, servers);
      if verdict.status == DownscaleRenderingPool {
        forwarded := forwarded + [ForwardDelete(DeletePoolBody(Some(verdict.deletePoolId)))];
      }
      enabled := false;
    }

    /** The timer fires: every attached handler runs, in the order attached. */
    method Elapse()
      requires Valid() && enabled
      modifies this
      ensures forwarded == old(forwarded) + Deletions(evaluate, old(handlers))
      ensures TimerState(enabled, handlers) == Apply(timerInterval.Some?, evaluate, old(TimerState(enabled, handlers)), Fire)
      ensures Valid()
    {
      for i := 0 to |handlers|
        invariant handlers == old(handlers)
        invariant forwarded == old(forwarded) + Deletions(evaluate, handlers[..i])
        invariant i > 0 ==> !enabled
      {
        assert handlers[..i + 1][..i] == handlers[..i];
        DownscaleElapsed(handlers[i].totalClients, handlers[i].servers);
      }
      assert handlers[..|handlers|] == handlers;
    }
  }
}
