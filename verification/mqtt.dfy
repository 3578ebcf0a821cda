/** The MQTT manager: start/stop commands read from inbound payloads, the
    two publishing topics, and the `connected` / `communicationError` /
    `reconnectionThreadRunning` flags as the constructor, `connectionLost`
    and the reconnection poll change them. The broker is reached through a
    client whose calls may each succeed or fail. */
module Mqtt {
  import opened JavaLang
  import opened Config

  // ------------------------------------------------------ inbound commands

  datatype Command = StartCapture | StopCapture | NoCommand

  /** `messageArrived`: the start token is looked for first, the stop token
      only when the start token is absent. The command is decided by where
      the tokens occur in the payload. */
  function MessageCommand(payload: string, startToken: string, stopToken: string): (cmd: Command)
    ensures cmd == StartCapture <==> OccursIn(startToken, payload)
    ensures cmd == StopCapture <==> !OccursIn(startToken, payload) && OccursIn(stopToken, payload)
    ensures cmd == NoCommand <==> !OccursIn(startToken, payload) && !OccursIn(stopToken, payload)
  {
    ContainsIffOccurs(payload, startToken);
    ContainsIffOccurs(payload, stopToken);
    if Contains(payload, startToken) then StartCapture
    else if Contains(payload, stopToken) then StopCapture
    else NoCommand
  }

  /** Surrounding text does not hide a token, and a payload carrying both
      tokens starts capturing. */
  lemma MessageCommandSurrounded(before: string, token: string, after: string, other: string)
    ensures MessageCommand(before + token + after, token, other) == StartCapture
    ensures !Contains(before + token + after, other)
            ==> MessageCommand(before + token + after, other, token) == StopCapture
  {
    ContainsSurrounded(before, token, after);
  }

  // ---------------------------------------------------------------- topics

  /** `stream` sends on the configured topic followed by
      `Constants.MQTT_STREAM_TOPIC`; `publishToTopic` sends on the configured
      topic itself. The stream topic extends the command topic, and differs
      from it exactly when the suffix is not empty. */
  function StreamTopic(c: Configuration, streamSuffix: string): (topic: string)
    ensures StartsWith(topic, c.mqttTopic)
    ensures topic == c.mqttTopic <==> streamSuffix == ""
  {
    var topic := c.mqttTopic + streamSuffix;
    assert topic[..|c.mqttTopic|] == c.mqttTopic;
    assert streamSuffix != "" ==> |topic| > |c.mqttTopic|;
    topic
  }

  // ---------------------------------------------------------------- client

  /** The `MqttConnectOptions` built by `attemptReconnect`. */
  datatype ConnectOptions = ConnectOptions(
    automaticReconnect: bool,
    cleanSession: bool,
    connectionTimeout: int,
    maxInflight: int,
    userName: string,
    password: string)

  function OptionsFor(c: Configuration): (o: ConnectOptions)
  {
    ConnectOptions(true, true, 10, 1000, c.mqttUsername, c.mqttPwd)
  }

  /** How a broker call ended: it returned, it threw an `MqttException`, or
      it threw a `RuntimeException` (an `IllegalArgumentException` for a
      topic the client rejects, for instance). */
  datatype Outcome = Returned | MqttThrew | RuntimeThrew

  /** One call made on the broker client, with how it ended. `connect` is
      only reached from the constructor, which catches both kinds of
      exception alike, so its entry only records whether it returned. */
  datatype ClientCall =
    | Connect(options: ConnectOptions, ok: bool)
    | SetCallback
    | Subscribe(topic: string, result: Outcome)
    | PublishMessage(topic: string, payload: string, result: Outcome)
    | PublishBytes(topic: string, payload: string, qos: int, retained: bool, result: Outcome)

  /** The calls of an `attemptReconnect` that got through. */
  function ConnectedLog(c: Configuration): seq<ClientCall>
  {
    [Connect(OptionsFor(c), true), SetCallback, Subscribe(c.mqttTopic, Returned)]
  }

  /** The calls of an `attemptReconnect` that threw after creating the client. */
  ghost predicate FailedConnectLog(calls: seq<ClientCall>, c: Configuration)
  {
    calls == [Connect(OptionsFor(c), false)]
    || (|calls| == 3 && calls[0] == Connect(OptionsFor(c), true) && calls[1] == SetCallback
        && calls[2].Subscribe? && calls[2].topic == c.mqttTopic && calls[2].result != Returned)
  }

  /** A Paho `MqttClient`: every call is logged; how the broker answers it
      is not known in advance. */
  class MqttClient {
    const serverUri: string
    const clientId: string
    var calls: seq<ClientCall>
    var callbackSet: bool

    /** `new MqttClient(serverURI, clientId)` once the URI was accepted. */
    constructor (serverUri: string, clientId: string)
      ensures this.serverUri == serverUri && this.clientId == clientId
      ensures calls == [] && !callbackSet
    {
      this.serverUri := serverUri;
      this.clientId := clientId;
      calls := [];
      callbackSet := false;
    }

    method Connect(options: ConnectOptions) returns (ok: bool)
      modifies this
      ensures calls == old(calls) + [ClientCall.Connect(options, ok)]
      ensures callbackSet == old(callbackSet)
    {
      ok :| true;
      calls := calls + [ClientCall.Connect(options, ok)];
    }

    /** `setCallback(this)`, which cannot fail. */
    method SetCallback()
      modifies this
      ensures calls == old(calls) + [ClientCall.SetCallback]
      ensures callbackSet
    {
      calls := calls + [ClientCall.SetCallback];
      callbackSet := true;
    }

    method Subscribe(topic: string) returns (result: Outcome)
      modifies this
      ensures calls == old(calls) + [ClientCall.Subscribe(topic, result)]
      ensures callbackSet == old(callbackSet)
    {
      result :| true;
      calls := calls + [ClientCall.Subscribe(topic, result)];
    }

    /** `publish(topic, MqttMessage)`, with the message's default settings. */
    method PublishMessage(topic: string, payload: string) returns (result: Outcome)
      modifies this
      ensures calls == old(calls) + [ClientCall.PublishMessage(topic, payload, result)]
      ensures callbackSet == old(callbackSet)
    {
      result :| true;
      calls := calls + [ClientCall.PublishMessage(topic, payload, result)];
    }

    /** `publish(topic, bytes, qos, retained)`. */
    method PublishBytes(topic: string, payload: string, qos: int, retained: bool) returns (result: Outcome)
      modifies this
      ensures calls == old(calls) + [ClientCall.PublishBytes(topic, payload, qos, retained, result)]
      ensures callbackSet == old(callbackSet)
    {
      result :| true;
      calls := calls + [ClientCall.PublishBytes(topic, payload, qos, retained, result)];
    }
  }

  // ---------------------------------------------------- the flag machine

  /** The manager's flags, the global `communicationError`, and the number
      of reconnection poll tasks that are still scheduled. */
  datatype Flags = Flags(
    connected: bool,
    communicationError: bool,
    reconnectionThreadRunning: bool,
    pollTasks: nat)

  /** The state the constructor leaves: `connected` if `attemptReconnect`
      got through, otherwise the communication error is raised. */
  function AfterConstruction(communicationError: bool, attemptOk: bool): Flags
  {
    if attemptOk then Flags(true, communicationError, false, 0)
    else Flags(false, true, false, 0)
  }

  /** What can happen to a constructed manager: the client reports a lost
      connection, or a scheduled poll task fires and, when it subscribes,
      the subscription ends one of three ways. */
  datatype Event = ConnectionLost | PollTick(subscribe: Outcome)

  /** `connectionLost` and one run of the poll lambda. A tick needs a
      scheduled task, so with none it changes nothing. The lambda catches
      only `MqttException`: a `RuntimeException` escapes it, and the
      executor then suppresses every later run of that task. */
  function Step(f: Flags, e: Event): (g: Flags)
    ensures g.communicationError == f.communicationError
    ensures g.reconnectionThreadRunning == f.reconnectionThreadRunning
    ensures e.ConnectionLost? ==>
              !g.connected && g.pollTasks == f.pollTasks + (if f.reconnectionThreadRunning then 0 else 1)
    ensures e.PollTick? && (f.connected || f.pollTasks == 0) ==> g == f
    ensures e.PollTick? && !f.connected && f.pollTasks > 0 ==>
              (g.connected <==> e.subscribe == Returned)
              && g.pollTasks == f.pollTasks - (if e.subscribe == RuntimeThrew then 1 else 0)
  {
    match e
    case ConnectionLost =>
      f.(connected := false,
         pollTasks := if !f.reconnectionThreadRunning then f.pollTasks + 1 else f.pollTasks)
    case PollTick(subscribe) =>
      if f.pollTasks == 0 || f.connected then f
      else if subscribe == Returned then f.(connected := true)
      else if subscribe == MqttThrew then f
      else assert subscribe == RuntimeThrew; f.(pollTasks := f.pollTasks - 1)
  }

  /** Whether the event makes the poll lambda call `subscribe`. */
  predicate Resubscribes(f: Flags, e: Event)
  {
    e.PollTick? && f.pollTasks > 0 && !f.connected
  }

  /** Whether the event ends a poll task for good. */
  predicate Cancels(f: Flags, e: Event)
  {
    Resubscribes(f, e) && e.subscribe == RuntimeThrew
  }

  function Run(f: Flags, evs: seq<Event>): Flags
    decreases |evs|
  {
    if evs == [] then f else Run(Step(f, evs[0]), evs[1..])
  }

  /** The number of `subscribe` calls the poll makes along `evs`. */
  function ResubscribeCount(f: Flags, evs: seq<Event>): nat
    decreases |evs|
  {
    if evs == [] then 0
    else (if Resubscribes(f, evs[0]) then 1 else 0) + ResubscribeCount(Step(f, evs[0]), evs[1..])
  }

  /** The number of poll tasks ended along `evs`. */
  function CancelCount(f: Flags, evs: seq<Event>): nat
    decreases |evs|
  {
    if evs == [] then 0
    else (if Cancels(f, evs[0]) then 1 else 0) + CancelCount(Step(f, evs[0]), evs[1..])
  }

  function LossCount(evs: seq<Event>): nat
    decreases |evs|
  {
    if evs == [] then 0 else (if evs[0].ConnectionLost? then 1 else 0) + LossCount(evs[1..])
  }

  /** The number of ticks in `evs` whose `subscribe` threw a RuntimeException. */
  function RuntimeFailures(evs: seq<Event>): nat
    decreases |evs|
  {
    if evs == [] then 0
    else (if evs[0] == PollTick(RuntimeThrew) then 1 else 0) + RuntimeFailures(evs[1..])
  }

  predicate NoLoss(evs: seq<Event>)
  {
    forall i :: 0 <= i < |evs| ==> evs[i].PollTick?
  }

  lemma {:induction false} RunAppend(f: Flags, evs: seq<Event>, e: Event)
    ensures Run(f, evs + [e]) == Step(Run(f, evs), e)
    decreases |evs|
  {
    if evs != [] {
      assert (evs + [e])[1..] == evs[1..] + [e];
      RunAppend(Step(f, evs[0]), evs[1..], e);
    }
  }

  /** `reconnectionThreadRunning` is never set, so every lost connection
      schedules one more poll task, and a task ends only when its
      `subscribe` throws a RuntimeException; nothing but construction
      touches the communication error. */
  lemma {:induction false} RunSchedulesOnePollPerLoss(f: Flags, evs: seq<Event>)
    requires !f.reconnectionThreadRunning
    ensures !Run(f, evs).reconnectionThreadRunning
    ensures Run(f, evs).pollTasks + CancelCount(f, evs) == f.pollTasks + LossCount(evs)
    ensures CancelCount(f, evs) <= RuntimeFailures(evs)
    ensures Run(f, evs).communicationError == f.communicationError
    decreases |evs|
  {
    if evs != [] {
      RunSchedulesOnePollPerLoss(Step(f, evs[0]), evs[1..]);
    }
  }

  /** Two lost connections leave two poll tasks running. */
  lemma TwoLossesTwoPolls(f: Flags)
    requires !f.reconnectionThreadRunning && f.pollTasks == 0
    ensures Run(f, [ConnectionLost, ConnectionLost]).pollTasks == 2
  {
    RunSchedulesOnePollPerLoss(f, [ConnectionLost, ConnectionLost]);
    assert LossCount([ConnectionLost, ConnectionLost]) == 2 by {
      assert [ConnectionLost, ConnectionLost][1..] == [ConnectionLost];
    }
  }

  /** Once connected, poll ticks keep the connection flag and never call
      `subscribe` again, until the next lost connection. */
  lemma {:induction false} ConnectedTicksAreIdle(f: Flags, evs: seq<Event>)
    requires f.connected && NoLoss(evs)
    ensures Run(f, evs) == f
    ensures ResubscribeCount(f, evs) == 0
    decreases |evs|
  {
    if evs != [] {
      assert evs[0].PollTick?;
      ConnectedTicksAreIdle(f, evs[1..]);
    }
  }

  lemma RuntimeFailuresOfPrefix(evs: seq<Event>, i: int)
    requires 1 <= i <= |evs|
    ensures RuntimeFailures(evs[..i])
            == (if evs[0] == PollTick(RuntimeThrew) then 1 else 0) + RuntimeFailures(evs[1..][..i - 1])
  {
    assert evs[..i][1..] == evs[1..][..i - 1];
  }

  /** While no connection is lost, a disconnected manager is connected again
      exactly when some tick's `subscribe` returned while a poll task was
      still scheduled, that is, before as many RuntimeExceptions as there
      were tasks had ended them all. */
  lemma {:induction false} ReconnectsIffSomeTickSucceeds(f: Flags, evs: seq<Event>)
    requires !f.connected && NoLoss(evs)
    ensures Run(f, evs).connected <==>
              exists i :: 0 <= i < |evs| && evs[i] == PollTick(Returned)
                          && RuntimeFailures(evs[..i]) < f.pollTasks
    decreases |evs|
  {
    if evs != [] {
      var g := Step(f, evs[0]);
      assert evs[0].PollTick?;
      if f.pollTasks > 0 && evs[0] == PollTick(Returned) {
        ConnectedTicksAreIdle(g, evs[1..]);
        assert RuntimeFailures(evs[..0]) == 0;
      } else {
        ReconnectsIffSomeTickSucceeds(g, evs[1..]);
        var d := if evs[0] == PollTick(RuntimeThrew) then 1 else 0;
        forall i | 1 <= i < |evs|
          ensures RuntimeFailures(evs[..i]) == d + RuntimeFailures(evs[1..][..i - 1])
          ensures evs[1..][i - 1] == evs[i]
        {
          RuntimeFailuresOfPrefix(evs, i);
        }
        if Run(f, evs).connected {
          var j :| 0 <= j < |evs[1..]| && evs[1..][j] == PollTick(Returned)
                   && RuntimeFailures(evs[1..][..j]) < g.pollTasks;
          assert evs[j + 1] == PollTick(Returned) && RuntimeFailures(evs[..j + 1]) < f.pollTasks;
        } else {
          forall i | 0 <= i < |evs| && evs[i] == PollTick(Returned)
            ensures RuntimeFailures(evs[..i]) >= f.pollTasks
          {
            if i >= 1 {
              assert evs[1..][i - 1] == PollTick(Returned);
            }
          }
        }
      }
    }
  }

  /** A failed first connection is final: without a lost-connection
      notification there is no poll task, so nothing retries. */
  lemma {:induction false} FailedConstructionNeverRetries(communicationError: bool, evs: seq<Event>)
    requires NoLoss(evs)
    ensures Run(AfterConstruction(communicationError, false), evs) == AfterConstruction(communicationError, false)
    ensures ResubscribeCount(AfterConstruction(communicationError, false), evs) == 0
    ensures AfterConstruction(communicationError, false).communicationError
    decreases |evs|
  {
    if evs != [] {
      FailedConstructionNeverRetries(communicationError, evs[1..]);
    }
  }

  /** Connected, then lost; the first tick's `subscribe` throws an
      MqttException, the second returns, the third finds the manager
      connected and does nothing. */
  lemma LostThenReconnectedScenario()
    ensures var f0 := AfterConstruction(false, true);
            var f1 := Step(f0, ConnectionLost);
            var f2 := Step(f1, PollTick(MqttThrew));
            var f3 := Step(f2, PollTick(Returned));
            var f4 := Step(f3, PollTick(Returned));
            f0.connected && !f1.connected && !f2.connected && f3.connected && f4 == f3
            && Resubscribes(f1, PollTick(MqttThrew)) && Resubscribes(f2, PollTick(Returned))
            && !Resubscribes(f3, PollTick(Returned)) && !f4.communicationError
  {
  }

  /** Connected, then lost once; the only poll task's `subscribe` throws a
      RuntimeException, which ends the task, so a later tick never comes and
      the manager stays disconnected. */
  lemma RuntimeFailureEndsPolling()
    ensures var f1 := Step(AfterConstruction(false, true), ConnectionLost);
            var f2 := Step(f1, PollTick(RuntimeThrew));
            f1.pollTasks == 1 && Cancels(f1, PollTick(RuntimeThrew))
            && f2.pollTasks == 0 && !f2.connected && Step(f2, PollTick(Returned)) == f2
  {
  }

  /** A first connection that failed only at `subscribe` left the client
      with the manager as callback: a later lost connection schedules a
      poll, which can reconnect while the communication error stays set. */
  lemma FailedSubscribeCanReconnect()
    ensures var f := Run(AfterConstruction(false, false), [ConnectionLost, PollTick(Returned)]);
            f.connected && f.communicationError && f.pollTasks == 1
  {
    var f0 := AfterConstruction(false, false);
    assert [ConnectionLost, PollTick(Returned)][1..] == [PollTick(Returned)];
    assert Run(f0, [ConnectionLost, PollTick(Returned)])
           == Run(Step(f0, ConnectionLost), [PollTick(Returned)]);
  }

  // ---------------------------------------------------------- the manager

  /** How a publish ends for the caller: the client returned normally, the
      MqttException was caught and logged, a RuntimeException from the
      client reached the caller, or there is no client at all and the
      NullPointerException reaches the caller. */
  datatype PublishOutcome = Published | Dropped | Escaped | NoClient

  /** How the client call ended, given what the caller of a publish saw. */
  function CallOutcome(p: PublishOutcome): Outcome
    requires !p.NoClient?
  {
    if p == Published then Returned else if p == Dropped then MqttThrew else RuntimeThrew
  }

  class MQTTManager {
    /** `FireflyLuciferin`'s statics, shared with the rest of the application. */
    const app: AppGlobals
    /** `Constants.MQTT_STREAM_TOPIC`. */
    const streamSuffix: string
    var client: MqttClient?
    var connected: bool
    var reconnectionThreadRunning: bool
    /** Poll tasks scheduled by `connectionLost` and not yet ended. */
    var pollTasks: nat

    /** Nothing sets `reconnectionThreadRunning`, and a poll task exists only
        after the client called back, so the client is there and has this
        manager as its callback. */
    ghost predicate Valid()
      reads this, client
    {
      !reconnectionThreadRunning
      && (pollTasks > 0 ==> client != null && client.callbackSet)
    }

    function State(): Flags
      reads this, app
    {
      Flags(connected, app.communicationError, reconnectionThreadRunning, pollTasks)
    }

    /** `new MQTTManager()`: `deviceName` is the OS-dependent client id. */
    constructor (app: AppGlobals, deviceName: string, streamSuffix: string)
      requires app.config.Some?
      modifies app
      ensures this.app == app && this.streamSuffix == streamSuffix
      ensures Valid()
      ensures app.config == old(app.config)
      ensures State() == AfterConstruction(old(app.communicationError), connected)
      ensures connected <==> client != null && client.calls == ConnectedLog(app.config.value)
      ensures connected ==> client != null && client.callbackSet
      ensures client != null ==> fresh(client) && client.clientId == deviceName
                                 && client.serverUri == app.config.value.mqttServer
      ensures client != null ==> (client.callbackSet <==> ClientCall.SetCallback in client.calls)
      ensures client != null && !connected ==> FailedConnectLog(client.calls, app.config.value)
    {
      this.app := app;
      this.streamSuffix := streamSuffix;
      client := null;
      connected := false;
      reconnectionThreadRunning := false;
      pollTasks := 0;
      new;
      var ok := AttemptReconnect(deviceName);
      if !ok {
        connected := false;
        app.communicationError := true;
      }
    }

    /** `attemptReconnect`: creates the client (whose constructor rejects
        some server URIs), connects, registers this manager as callback,
        subscribes, and only then sets `connected`. `ok` is false when one
        of these steps threw. */
    method AttemptReconnect(deviceName: string) returns (ok: bool)
      requires app.config.Some?
      modifies this
      ensures reconnectionThreadRunning == old(reconnectionThreadRunning)
      ensures pollTasks == old(pollTasks)
      ensures ok ==> connected && client != null && fresh(client) && client.callbackSet
                     && client.calls == ConnectedLog(app.config.value)
      ensures !ok ==> connected == old(connected)
      ensures !ok ==> client == old(client) || (fresh(client) && FailedConnectLog(client.calls, app.config.value))
      ensures client != old(client) ==>
                client != null && client.clientId == deviceName
                && client.serverUri == app.config.value.mqttServer
                && (client.callbackSet <==> ClientCall.SetCallback in client.calls)
    {
      var cfg := app.config.value;
      var uriAccepted: bool :| true;
      if !uriAccepted {
        return false;
      }
      client := new MqttClient(cfg.mqttServer, deviceName);
      ok := client.Connect(OptionsFor(cfg));
      if !ok {
        return;
      }
      client.SetCallback();
      var subscribed := client.Subscribe(cfg.mqttTopic);
      if subscribed != Returned {
        return false;
      }
      connected := true;
    }

    /** `publishToTopic(msg)`: sends on the configured topic. */
    method PublishToTopic(msg: string) returns (outcome: PublishOutcome)
      requires Valid() && app.config.Some?
      modifies client
      ensures Valid() && State() == old(State())
      ensures client == null <==> outcome == NoClient
      ensures client != null ==>
                client.callbackSet == old(client.callbackSet)
                && client.calls == old(client.calls)
                   + [PublishMessage(app.config.value.mqttTopic, msg, CallOutcome(outcome))]
    {
      if client == null {
        return NoClient;
      }
      var result := client.PublishMessage(app.config.value.mqttTopic, msg);
      outcome := if result == Returned then Published
                 else if result == MqttThrew then Dropped
                 else Escaped;
    }

    /** `stream(msg)`: QoS 0, not retained. */
    method Stream(msg: string) returns (outcome: PublishOutcome)
      requires Valid() && app.config.Some?
      modifies client
      ensures Valid() && State() == old(State())
      ensures client == null <==> outcome == NoClient
      ensures client != null ==>
                client.callbackSet == old(client.callbackSet)
                && client.calls == old(client.calls)
                   + [PublishBytes(StreamTopic(app.config.value, streamSuffix), msg, 0, false, CallOutcome(outcome))]
    {
      if client == null {
        return NoClient;
      }
      var result := client.PublishBytes(StreamTopic(app.config.value, streamSuffix), msg, 0, false);
      outcome := if result == Returned then Published
                 else if result == MqttThrew then Dropped
                 else Escaped;
    }

    /** `connectionLost`: called by the client, so it exists and has this
        manager as callback. */
    method ConnectionLost()
      requires Valid() && client != null && client.callbackSet
      modifies this
      ensures Valid() && client == old(client)
      ensures State() == Step(old(State()), Event.ConnectionLost)
    {
      connected := false;
      if !reconnectionThreadRunning {
        pollTasks := pollTasks + 1;
      }
    }

    /** One run of a poll lambda scheduled by `connectionLost`. `subscribe`
        says how the `subscribe` call ended, and is `None` when the manager
        was connected and nothing was called. The client keeps this manager
        as its callback. */
    method PollTick() returns (subscribe: Option<Outcome>)
      requires Valid() && pollTasks > 0 && app.config.Some?
      modifies this, client
      ensures Valid() && client == old(client) && client.callbackSet
      ensures subscribe.None? <==> old(connected)
      ensures subscribe.None? ==> State() == old(State()) && client.calls == old(client.calls)
      ensures subscribe.Some? ==>
                State() == Step(old(State()), Event.PollTick(subscribe.value))
                && client.calls == old(client.calls)
                   + [ClientCall.SetCallback, ClientCall.Subscribe(app.config.value.mqttTopic, subscribe.value)]
    {
      if connected {
        return None;
      }
      client.SetCallback();
      var result := client.Subscribe(app.config.value.mqttTopic);
      if result == Returned {
        connected := true;
      } else if result == RuntimeThrew {
        pollTasks := pollTasks - 1;
      }
      subscribe := Some(result);
    }
  }

  /** The client reports a lost connection to `m`, and then up to `ticks`
      runs of its poll tasks follow, as long as one is still scheduled. The
      returned events are the runs that called `subscribe`; the runs after
      a reconnection call nothing and change nothing. The manager goes
      through the flag machine's states along those events, keeps its
      client and callback, and ends connected exactly when a `subscribe`
      returned before RuntimeExceptions had ended every poll task. */
  method LoseThenPoll(m: MQTTManager, ticks: nat) returns (tickEvents: seq<Event>)
    requires m.Valid() && m.client != null && m.client.callbackSet && m.app.config.Some?
    modifies m, m.client
    ensures m.Valid() && m.client == old(m.client) && m.client.callbackSet
    ensures |tickEvents| <= ticks && NoLoss(tickEvents)
    ensures |tickEvents| < ticks ==> m.pollTasks == 0 || m.connected
    ensures m.State() == Run(Step(old(m.State()), ConnectionLost), tickEvents)
    ensures m.connected <==>
              exists i :: 0 <= i < |tickEvents| && tickEvents[i] == PollTick(Returned)
                          && RuntimeFailures(tickEvents[..i]) <= old(m.pollTasks)
  {
    ghost var lost := Step(m.State(), ConnectionLost);
    m.ConnectionLost();
    tickEvents := [];
    var ran := 0;
    while ran < ticks && m.pollTasks > 0
      invariant m.Valid() && m.client == old(m.client) && m.client.callbackSet && m.app.config.Some?
      invariant |tickEvents| <= ran <= ticks && NoLoss(tickEvents)
      invariant |tickEvents| < ran ==> m.connected
      invariant m.State() == Run(lost, tickEvents)
      decreases ticks - ran
    {
      var subscribe := m.PollTick();
      if subscribe.Some? {
        RunAppend(lost, tickEvents, PollTick(subscribe.value));
        tickEvents := tickEvents + [PollTick(subscribe.value)];
      }
      ran := ran + 1;
    }
    ReconnectsIffSomeTickSucceeds(lost, tickEvents);
  }

  /** Two lost connections, each followed by polling: after the first round
      the client still has the manager as callback, whether the poll
      reconnected or every poll task ended, so the second loss is reported
      and schedules a fresh poll task. */
  method LoseThenPollTwice(m: MQTTManager, ticks: nat) returns (first: seq<Event>, second: seq<Event>)
    requires m.Valid() && m.client != null && m.client.callbackSet && m.app.config.Some?
    modifies m, m.client
    ensures m.Valid() && m.client == old(m.client) && m.client.callbackSet
    ensures m.State() == Run(Step(Run(Step(old(m.State()), ConnectionLost), first), ConnectionLost), second)
  {
    first := LoseThenPoll(m, ticks);
    second := LoseThenPoll(m, ticks);
  }

  /** A manager is built. If its client has it as callback, which is the
      case after a successful first connection and also when only the
      first `subscribe` threw, the client later reports a lost connection
      and up to `ticks` poll runs follow; such a manager can reconnect
      through the poll even though its first connection failed. Otherwise
      the client never calls back and nothing happens. */
  method ConnectThenLose(app: AppGlobals, deviceName: string, streamSuffix: string, ticks: nat)
    returns (m: MQTTManager, firstOk: bool, calledBack: bool, tickEvents: seq<Event>)
    requires app.config.Some?
    modifies app
    ensures fresh(m) && m.app == app && m.Valid() && app.config == old(app.config)
    ensures m.client != null ==> fresh(m.client)
    ensures firstOk ==> calledBack
    ensures calledBack <==> m.client != null && m.client.callbackSet
    ensures calledBack ==>
              m.State() == Run(Step(AfterConstruction(old(app.communicationError), firstOk), ConnectionLost), tickEvents)
              && (m.connected <==>
                    exists i :: 0 <= i < |tickEvents| && tickEvents[i] == PollTick(Returned)
                                && RuntimeFailures(tickEvents[..i]) == 0)
    ensures !calledBack ==>
              m.State() == AfterConstruction(old(app.communicationError), false) && tickEvents == []
  {
    m := new MQTTManager(app, deviceName, streamSuffix);
    firstOk := m.connected;
    calledBack := m.client != null && m.client.callbackSet;
    tickEvents := [];
    if calledBack {
      tickEvents := LoseThenPoll(m, ticks);
    }
  }

  /** After `ConnectThenLose` the caller still owns a usable manager: it can
      publish on it and, while the callback is registered, go through
      another lost connection; the application's configuration is the one
      it passed in. */
  method ConnectLoseThenPublish(app: AppGlobals, deviceName: string, streamSuffix: string, ticks: nat, message: string)
    returns (m: MQTTManager, published: PublishOutcome)
    requires app.config.Some?
    modifies app
    ensures fresh(m) && m.app == app && m.Valid() && app.config == old(app.config)
    ensures m.client == null <==> published == NoClient
  {
    var firstOk, calledBack, tickEvents;
    m, firstOk, calledBack, tickEvents := ConnectThenLose(app, deviceName, streamSuffix, ticks);
    published := m.PublishToTopic(message);
    if calledBack {
      var more := LoseThenPoll(m, ticks);
    }
  }
}
