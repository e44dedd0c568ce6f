/** The HiveMQ cloud adapter: it derives the Sparkplug B identity and topics
    from the username, spawns the event-loop task, and offers publish, connect
    and disconnect.

    `publish` spawns a task that first queues a registration (the message id and
    a oneshot sender) for the event loop, then hands the publish request to the
    MQTT client, then waits on its oneshot. The event loop pairs registrations
    with outgoing publishes oldest first. `connect` turns the run switch on and
    returns a token that waits for the next CONNACK code, subscribes to the
    command topic, and maps the code to a result. `disconnect` queues a
    disconnect request without waiting.

    The model's state is the adapter's and the event loop's together: the
    spawned tasks are explicit, each at the await point it has reached, and
    `wire` records, for every packet id, which message's payload went out under
    it. The broker, rumqttc's network side and the scheduler are the environment:
    each of their moves is one `Action`. */
module HiveMQAdapter {
  import opened Wrappers
  import opened Ints
  import opened Strings
  import opened Channels
  import opened Mqtt
  import opened HiveMQEventLoop
  import AC = AdapterCore
  import HE = HiveMQError
  import HT = HiveMQTokens
  import Ana
  import DataSourceCore
  import SparkplugSequence

  // ---------------------------------------------------------------------------
  // Identity and topics

  /** What indexing the second piece of a one-piece split panics with. */
  const INDEX_PANIC: string := "index out of bounds: the len is 1 but the index is 1"

  /** The edge node id is the text before the first '@'; the group id is the text
      between the first and the second '@' with every trailing ".com" trimmed.
      Without an '@' the second piece does not exist and indexing it panics. */
  function UsernameIds(username: string): (r: Exec<(string, string)>)
    ensures r.Panics? <==> '@' !in username
    ensures r.Returns? ==> '@' !in r.value.0 && '@' !in r.value.1 && !EndsWith(r.value.1, ".com")
  {
    var parts := Split(username, '@');
    SplitSingle(username, '@');
    SplitPiecesAvoid(username, '@');
    if |parts| < 2 then Panics(INDEX_PANIC)
    else Returns((parts[0], TrimEndMatches(parts[1], ".com")))
  }

  /** The ids come back from any username built as edge@group followed by copies
      of ".com", and by anything after a further '@'. */
  lemma UsernameIdsRoundTrip(edge: string, group: string, k: nat, tail: string)
    requires '@' !in edge && '@' !in group && !EndsWith(group, ".com")
    requires tail == [] || tail[0] == '@'
    ensures UsernameIds(edge + "@" + group + Repeat(".com", k) + tail) == Returns((edge, group))
  {
    var gk := group + Repeat(".com", k);
    RepeatAvoids(".com", k, '@');
    assert '@' !in gk;
    var u := edge + "@" + group + Repeat(".com", k) + tail;
    assert u == edge + ['@'] + (gk + tail);
    SplitPrefix(edge, '@', gk + tail);
    if tail == [] {
      assert gk + tail == gk;
      SplitNoSeparator(gk, '@');
    } else {
      assert gk + tail == gk + ['@'] + tail[1..];
      SplitPrefix(gk, '@', tail[1..]);
    }
    assert Split(u, '@')[1] == gk;
    TrimEndMatchesRepeat(group, ".com", k);
  }

  /** Sparkplug B topic of node commands (section 4.1 of Eclipse Sparkplug 3.0). */
  function TopicCmd(group: string, edge: string): string {
    "spBv1.0/" + group + "/NCMD/" + edge
  }

  /** Sparkplug B topic of node data. */
  function TopicData(group: string, edge: string): string {
    "spBv1.0/" + group + "/NDATA/" + edge
  }

  /** The topics are the four levels namespace/group/message type/edge node:
      splitting on '/' gives them back, so the ids can be read off either topic. */
  lemma TopicLevels(group: string, edge: string)
    requires '/' !in group && '/' !in edge
    ensures Split(TopicCmd(group, edge), '/') == ["spBv1.0", group, "NCMD", edge]
    ensures Split(TopicData(group, edge), '/') == ["spBv1.0", group, "NDATA", edge]
  {
    var cmd := ["spBv1.0", group, "NCMD", edge];
    var data := ["spBv1.0", group, "NDATA", edge];
    assert Join(cmd[3..], '/') == edge;
    assert Join(cmd[2..], '/') == "NCMD" + "/" + edge;
    assert Join(cmd[1..], '/') == group + "/" + "NCMD" + "/" + edge;
    assert Join(cmd, '/') == TopicCmd(group, edge);
    assert Join(data[3..], '/') == edge;
    assert Join(data[2..], '/') == "NDATA" + "/" + edge;
    assert Join(data[1..], '/') == group + "/" + "NDATA" + "/" + edge;
    assert Join(data, '/') == TopicData(group, edge);
    assert forall i :: 0 <= i < 4 ==> '/' !in cmd[i];
    assert forall i :: 0 <= i < 4 ==> '/' !in data[i];
    SplitJoin(cmd, '/');
    SplitJoin(data, '/');
  }

  /** Different nodes never share a topic, and the data and command topics of
      nodes never coincide. */
  lemma TopicsDistinguishNodes(g1: string, e1: string, g2: string, e2: string)
    requires '/' !in g1 && '/' !in e1 && '/' !in g2 && '/' !in e2
    ensures TopicCmd(g1, e1) == TopicCmd(g2, e2) <==> g1 == g2 && e1 == e2
    ensures TopicData(g1, e1) == TopicData(g2, e2) <==> g1 == g2 && e1 == e2
    ensures TopicData(g1, e1) != TopicCmd(g2, e2)
  {
    TopicLevels(g1, e1);
    TopicLevels(g2, e2);
    var a := Split(TopicData(g1, e1), '/');
    var b := Split(TopicCmd(g2, e2), '/');
    assert a[2] != b[2];
  }

  // ---------------------------------------------------------------------------
  // Construction

  datatype Config = Config(username: string, password: string, anaEndpoint: string, mqttEndpoint: string)

  /** The username and the two topics; the event loop and the adapter each keep a copy. */
  datatype Credentials = Credentials(username: string, topicData: string, topicCmd: string)

  datatype Settings = Settings(creds: Credentials, edgeNodeId: string, groupId: string,
                               mqttEndpoint: string, ana: Ana.AnaState)

  /** The fallible part of `SpecialHiveMQ::new`, in the order it runs: decoding the
      JSON configuration (`config`), building the AnA client (`anaUrl` is the
      outcome of parsing the AnA endpoint), splitting the username, loading the
      native certificates (`certs`). Each failure is an initialization error with
      the failure's text; a username without '@' panics. */
  function NewSettings(config: Result<Config, string>, anaUrl: Result<string, string>, certs: Result<(), string>)
    : (r: Exec<Result<Settings, AC.Error>>)
    ensures r.Panics? <==> config.Ok? && anaUrl.Ok? && '@' !in config.value.username
    ensures config.Err? ==> r == Returns(Err(AC.Initialization(config.error)))
    ensures config.Ok? && anaUrl.Err? ==>
              r == Returns(Err(AC.Initialization(Ana.AnaErrorText(Ana.Initialization(anaUrl.error)))))
    ensures r.Returns? && r.value.Ok? <==> config.Ok? && anaUrl.Ok? && '@' in config.value.username && certs.Ok?
    ensures r.Returns? && r.value.Ok? ==>
              var s := r.value.value;
              s.creds.username == config.value.username
              && s.creds.topicCmd == TopicCmd(s.groupId, s.edgeNodeId)
              && s.creds.topicData == TopicData(s.groupId, s.edgeNodeId)
              && UsernameIds(config.value.username) == Returns((s.edgeNodeId, s.groupId))
              && s.ana.body.Keys == {"username", "password", "scope"}
              && s.ana.body["username"] == config.value.username
              && s.ana.body["password"] == config.value.password
              && s.ana.autoRenew
  {
    match config
    case Err(t) => Returns(Err(HE.IntoCoreError(HE.Init(t)).value))
    case Ok(c) =>
      match Ana.NewMqtt(anaUrl, c.username, c.password, true)
      case Err(e) => Returns(Err(HE.IntoCoreError(HE.Init(Ana.AnaErrorText(e))).value))
      case Ok(ana) =>
        match UsernameIds(c.username)
        case Panics(why) => Panics(why)
        case Returns((edge, group)) =>
          match certs
          case Err(t) => Returns(Err(HE.IntoCoreError(HE.Init(t)).value))
          case Ok(_) =>
            var creds := Credentials(c.username, TopicData(group, edge), TopicCmd(group, edge));
            Returns(Ok(Settings(creds, edge, group, c.mqttEndpoint, ana)))
  }

  // ---------------------------------------------------------------------------
  // The adapter's state

  /** Where a spawned publish task is: before queueing its registration, before
      handing its publish to the client (holding the slot of its oneshot), waiting
      on its oneshot, or ended by a panic. */
  datatype Stage = ToRegister | ToWrite(slot: nat) | AwaitingAck(slot: nat) | TaskPanicked(reason: string)

  datatype PublishTask = PublishTask(msgId: u32, request: Request, stage: Stage)

  /** Where a connection token's future is: waiting for a CONNACK code, or holding
      one and waiting to queue the subscription. */
  datatype ConnectToken = AwaitingCode(rx: BroadcastRx) | Subscribing(code: ConnectReturnCode)

  datatype ConnectPoll =
    | StillConnecting
    | ConnectResolved(result: Result<WatchRx, AC.ConnectionError>)
    | ConnectPanicked(reason: string)

  datatype AdapterState = AdapterState(
    creds: Credentials,
    loop: LoopState,
    nextSeq: u64,                 // the transform's sequence counter
    tasks: seq<PublishTask>,      // every publish task spawned, in order
    wire: map<u16, u32>,          // whose payload last went out under each packet id
    ana: Ana.AnaState,            // the AnA client the event loop owns
    pwRx: Option<BroadcastRx>,    // the loop's renewal receiver, once its task has started
    lossRx: WatchRx,              // the adapter's own loss receiver
    shutdown: bool)               // the cancellation token has been cancelled

  /** The state right after `new`: the loop task is spawned but has not run, so it
      has no renewal receiver yet; it will wait for its first password; the
      adapter's loss receiver has already seen the placeholder value. */
  function Initial(s: Settings): (st: AdapterState)
    ensures WF(st.loop) && st.loop.run == RunCell(false, true, true)
    ensures st.loop.phase.AwaitingPassword? && st.loop.password.None? && st.pwRx.None?
    ensures st.loop.lost.value == AC.Uncategorized("init") && !HasChanged(st.loop.lost, st.lossRx)
  {
    AdapterState(s.creds, Init(s.creds.username), 0, [], map[], s.ana, None, WatchRx(0), false)
  }

  /** The loop task has run its first statement, `get_token_renewal`. Until then
      none of its select! branches can complete. */
  predicate Started(st: AdapterState) {
    st.pwRx.Some? || !st.loop.phase.AwaitingPassword?
  }

  /** The loop task's first move: it subscribes to the AnA client's renewals, and
      from then on sees only tokens broadcast after this point. */
  function SubscribeStep(st: AdapterState): (st': AdapterState)
    ensures st.pwRx.None? ==> st' == st.(pwRx := Some(BroadcastRx(|st.ana.broadcasts|)))
    ensures st.pwRx.Some? ==> st' == st
  {
    if st.pwRx.None? then st.(pwRx := Some(BroadcastRx(|st.ana.broadcasts|))) else st
  }

  // ---------------------------------------------------------------------------
  // publish and its task

  /** The request a publish task hands to the client: the transformed payload,
      at least once, not retained, on the data topic. */
  function PublishRequestFor(st: AdapterState, msg: DataSourceCore.MsgBusData): Request {
    PublishRequest(st.creds.topicData, AtLeastOnce, false, Payload(st.nextSeq, msg.payload), msg.id)
  }

  /** `publish`: transforms the payload (spending one sequence number) and spawns
      the task; nothing reaches the event loop before the task runs. */
  function PublishStep(st: AdapterState, msg: DataSourceCore.MsgBusData): (r: (AdapterState, HT.DeliveryToken))
    ensures r.1 == HT.DeliveryToken(msg.id, |st.tasks|)
    ensures r.0.nextSeq == WrappingIncU64(st.nextSeq)
    ensures r.0.loop == st.loop
    ensures |r.0.tasks| == |st.tasks| + 1 && r.0.tasks[..|st.tasks|] == st.tasks
    ensures var t := r.0.tasks[|st.tasks|];
            t.msgId == msg.id && t.stage == ToRegister
            && t.request.PublishRequest? && t.request.topic == st.creds.topicData
            && t.request.qos == AtLeastOnce && !t.request.retain
            && t.request.payload == Payload(st.nextSeq, msg.payload) && t.request.origin == msg.id
  {
    var task := PublishTask(msg.id, PublishRequestFor(st, msg), ToRegister);
    (st.(nextSeq := WrappingIncU64(st.nextSeq), tasks := st.tasks + [task]), HT.DeliveryToken(msg.id, |st.tasks|))
  }

  function SetStage(st: AdapterState, i: nat, stage: Stage): AdapterState
    requires i < |st.tasks|
  {
    st.(tasks := st.tasks[i := st.tasks[i].(stage := stage)])
  }

  /** One await of task `i`, as written. Queueing the registration waits for room
      in its channel and panics (`unwrap`) once the loop has ended; handing the
      publish to the client waits for room in the request channel and panics once
      the loop task has panicked, which drops the client's event loop. */
  function TaskAdvance(st: AdapterState, i: nat): AdapterState {
    if i >= |st.tasks| then st
    else
      var task := st.tasks[i];
      match task.stage
      case ToRegister =>
        if !Live(st.loop) then SetStage(st, i, TaskPanicked(UNWRAP_PANIC))
        else if |st.loop.regs| < ACK_CHANNEL_CAPACITY then
          SetStage(st.(loop := Register(st.loop, task.msgId)), i, ToWrite(|st.loop.slots|))
        else st
      case ToWrite(slot) =>
        if ClientClosed(st) then SetStage(st, i, TaskPanicked(UNWRAP_PANIC))
        else if |st.loop.requests| < REQUEST_CAPACITY then
          SetStage(st.(loop := Enqueue(st.loop, task.request)), i, AwaitingAck(slot))
        else st
      case _ => st
  }

  /** The same task with its registration and its publish queued in one step, as
      in the alternative kept in a comment beside it (`try_send` of the
      registration, then `try_publish`, both in `publish` itself). That alternative
      unwraps both and so panics when either channel is full; this one waits. */
  function TaskAdvanceAtomically(st: AdapterState, i: nat): AdapterState {
    if i >= |st.tasks| || !st.tasks[i].stage.ToRegister? then st
    else
      var task := st.tasks[i];
      if !Live(st.loop) then SetStage(st, i, TaskPanicked(UNWRAP_PANIC))
      else if |st.loop.regs| < ACK_CHANNEL_CAPACITY && |st.loop.requests| < REQUEST_CAPACITY then
        SetStage(st.(loop := Enqueue(Register(st.loop, task.msgId), task.request)), i, AwaitingAck(|st.loop.slots|))
      else st
  }

  /** What awaiting task `i`'s handle gives once the task has finished: the id its
      oneshot delivered, the lost-acknowledgement error when its oneshot was
      closed, or a join error when it panicked. */
  function TaskOutcome(st: AdapterState, i: nat): (r: Option<HT.JoinOutcome>)
    requires i < |st.tasks|
    ensures r.Some? && r.value.Joined? ==> st.tasks[i].stage.AwaitingAck?
    ensures r.Some? && r.value.JoinFailed? <==> st.tasks[i].stage.TaskPanicked?
  {
    match st.tasks[i].stage
    case TaskPanicked(reason) => Some(HT.JoinFailed(reason))
    case AwaitingAck(slot) =>
      if slot >= |st.loop.slots| then None
      else (match st.loop.slots[slot]
            case Waiting => None
            case Fulfilled(id) => Some(HT.Joined(Ok(id)))
            case Dropped => Some(HT.Joined(Err(HE.LOST_ACK))))
    case _ => None
  }

  /** `wait_for_ack` on a token: nothing yet while its task runs, then the task's
      outcome mapped to a delivery result. */
  function WaitForAck(st: AdapterState, token: HT.DeliveryToken): Option<Result<u32, AC.DeliveryError>>
    requires token.task < |st.tasks|
  {
    match TaskOutcome(st, token.task)
    case None => None
    case Some(j) => Some(HT.WaitForAck(token, j))
  }

  /** A task whose oneshot was closed fails with the lost-acknowledgement text and
      its own message id. */
  lemma LostAckReported(st: AdapterState, token: HT.DeliveryToken)
    requires token.task < |st.tasks|
    requires st.tasks[token.task].stage.AwaitingAck?
    requires var slot := st.tasks[token.task].stage.slot; slot < |st.loop.slots| && st.loop.slots[slot] == Dropped
    ensures WaitForAck(st, token) == Some(Err(AC.DeliveryError(token.msgId, "publish acknowledgement: [no ack: [channel closed]]")))
  {
    assert TaskOutcome(st, token.task) == Some(HT.Joined(Err(HE.LOST_ACK)));
    HE.LostAckText();
  }

  // ---------------------------------------------------------------------------
  // The environment: rumqttc sending requests, the broker, the AnA client

  /** rumqttc takes the oldest request off the channel and sends it, and the loop
      sees the outgoing packet; a publish goes out under `pkid`. rumqttc sends only
      while the loop polls it. */
  function WireOut(st: AdapterState, pkid: u16): AdapterState {
    if !st.loop.phase.Running? || |st.loop.requests| == 0 then st
    else
      var head := st.loop.requests[0];
      var loop := Dequeue(st.loop);
      match head
      case PublishRequest(_, _, _, _, origin) =>
        st.(wire := st.wire[pkid := origin], loop := Step(loop, Polled(Ok(Outgoing(OutPublish(pkid))))))
      case SubscribeRequest(_, _) => st.(loop := Step(loop, Polled(Ok(Outgoing(OutSubscribe(pkid))))))
      case DisconnectRequest => st.(loop := Step(loop, Polled(Ok(Outgoing(OutDisconnect)))))
  }

  /** Branches of the loop's select! the environment completes: a packet from the
      broker, a polling error, an outgoing packet that did not come from the
      request channel, the run switch, and shutdown once the token is cancelled.
      Outgoing publishes come only from `WireOut`, password updates only from the
      AnA client. */
  predicate FromEnvironment(st: AdapterState, ev: LoopEvent) {
    Started(st) &&
    match ev
    case ShutdownFired => st.shutdown
    case RunChanged => true
    case PasswordUpdated(_) => false
    case Polled(Ok(Outgoing(o))) => !o.OutPublish?
    case Polled(_) => true
  }

  function LoopStep(st: AdapterState, ev: LoopEvent): AdapterState {
    if FromEnvironment(st, ev) then st.(loop := Step(st.loop, ev)) else st
  }

  /** The loop's password branch completes with what its renewal receiver reads;
      the branch is part of the select! only before and inside the main loop. */
  function PasswordStep(st: AdapterState): AdapterState {
    if !(st.loop.phase.AwaitingPassword? || st.loop.phase.Running?) || st.pwRx.None?
       || st.pwRx.value.next > |st.ana.broadcasts| then st
    else
      var (got, rx) := Ana.PasswordUpdated(st.ana, st.pwRx.value);
      match got
      case None => st
      case Some(Ok(p)) => st.(pwRx := Some(rx), loop := Step(st.loop, PasswordUpdated(Ok(p))))
      case Some(Err(e)) => st.(pwRx := Some(rx), loop := Step(st.loop, PasswordUpdated(Err(Ana.AnaErrorText(e)))))
  }

  /** One round of the AnA client's renewal task. */
  function AnaRenewal(st: AdapterState, attempts: seq<Result<Ana.Response, string>>, now: nat): AdapterState {
    st.(ana := Ana.Renew(st.ana, attempts, now).0)
  }

  /** The AnA renewal task runs from `new_mqtt` on, so it can broadcast a token
      before the loop task has subscribed. That token reaches no receiver: once
      subscribed, the loop finds nothing to read and keeps waiting for a password. */
  lemma EarlyTokenLost(s: Settings, r: Ana.Response, now: nat)
    ensures var st1 := AnaRenewal(Initial(s), [Ok(r)], now);
            var st3 := PasswordStep(SubscribeStep(st1));
            st1.ana.broadcasts == s.ana.broadcasts + [r.accessToken]
            && st3.loop.phase.AwaitingPassword? && st3.loop.password.None?
  {
  }

  /** Subscribed before the broadcast, the loop reads that token, installs it as
      its password and starts polling. */
  lemma SubscribedTokenDelivered(s: Settings, r: Ana.Response, now: nat)
    ensures var st1 := AnaRenewal(SubscribeStep(Initial(s)), [Ok(r)], now);
            var st2 := PasswordStep(st1);
            st2.loop.phase.Running? && st2.loop.password == Some(r.accessToken)
  {
  }

  // ---------------------------------------------------------------------------
  // connect, disconnect, drop

  /** `connect`: turns the run switch on and returns a token that reads CONNACK
      codes broadcast from now on. It never fails. */
  function ConnectStep(st: AdapterState): (r: (AdapterState, Result<ConnectToken, AC.ConnectionError>))
    ensures r.1.Ok? && r.1.value == AwaitingCode(BroadcastRx(|st.loop.connAcks|))
    ensures r.0 == st.(loop := SetRun(st.loop, true))
    ensures r.0.loop.run.value && r.0.loop.run.unseen
  {
    (st.(loop := SetRun(st.loop, true)), Ok(AwaitingCode(BroadcastRx(|st.loop.connAcks|))))
  }

  /** rumqttc's request channel is closed: its receiver, inside the event loop,
      went with the loop task's panic, or with the task's output once the adapter,
      which holds the join handle, was dropped and the task ended. */
  predicate ClientClosed(st: AdapterState) {
    st.loop.phase.Panicked? || (st.shutdown && !Live(st.loop))
  }

  /** Every sender of the CONNACK broadcast is gone: the adapter's, dropped with it,
      and the loop task's, dropped when the task ended. */
  predicate ConnAcksClosed(st: AdapterState) {
    st.shutdown && !Live(st.loop)
  }

  /** With a code in hand the token queues the command-topic subscription, and only
      then looks at the code. */
  function Subscribe(st: AdapterState, code: ConnectReturnCode): (AdapterState, ConnectToken, ConnectPoll) {
    if ClientClosed(st) then (st, Subscribing(code), ConnectPanicked(UNWRAP_PANIC))
    else if |st.loop.requests| < REQUEST_CAPACITY then
      var st' := st.(loop := Enqueue(st.loop, SubscribeRequest(st.creds.topicCmd, AtLeastOnce)));
      if code == Success then (st', Subscribing(code), ConnectResolved(Ok(st.lossRx)))
      else (st', Subscribing(code), ConnectResolved(Err(AC.Failure(RefusalText(code)))))
    else (st, Subscribing(code), StillConnecting)
  }

  /** One poll of a connection token's future. */
  function PollConnect(st: AdapterState, t: ConnectToken): (r: (AdapterState, ConnectToken, ConnectPoll))
    ensures r.2.ConnectResolved? && r.2.result.Ok? ==> r.2.result.value == st.lossRx
    ensures r.2.ConnectResolved? && t.Subscribing? && r.2.result.Ok? <==>
              t.Subscribing? && t.code == Success && !ClientClosed(st) && |st.loop.requests| < REQUEST_CAPACITY
    ensures t.AwaitingCode? && t.rx.next == |st.loop.connAcks| ==>
              r.0 == st && (r.2 == ConnectResolved(Err(AC.Failure(CLOSED_TEXT))) <==> ConnAcksClosed(st))
              && (r.2 == StillConnecting <==> !ConnAcksClosed(st))
  {
    match t
    case Subscribing(code) => Subscribe(st, code)
    case AwaitingCode(rx) =>
      if rx.next > |st.loop.connAcks| then (st, t, StillConnecting)
      else
        var (got, rx') := BroadcastRecv(st.loop.connAcks, rx);
        match got
        case Empty =>
          if ConnAcksClosed(st) then (st, t, ConnectResolved(Err(AC.Failure(CLOSED_TEXT))))
          else (st, t, StillConnecting)
        case Lagged(n) => (st, AwaitingCode(rx'), ConnectResolved(Err(AC.Failure(LaggedText(n)))))
        case Received(code) => Subscribe(st, code)
  }

  /** A CONNACK code resolves the token: success yields the loss receiver, any
      other code a failure naming the code; either way the subscription to the
      command topic is queued first. */
  lemma ConnAckDecidesConnect(st: AdapterState, code: ConnectReturnCode)
    requires !ClientClosed(st) && |st.loop.requests| < REQUEST_CAPACITY
    ensures var (st', _, p) := PollConnect(st, AwaitingCode(BroadcastRx(|st.loop.connAcks|)));
            st' == st
            && p == StillConnecting
    ensures var s1 := st.(loop := st.loop.(connAcks := st.loop.connAcks + [code]));
            var (st', _, p) := PollConnect(s1, AwaitingCode(BroadcastRx(|st.loop.connAcks|)));
            st'.loop.requests == st.loop.requests + [SubscribeRequest(st.creds.topicCmd, AtLeastOnce)]
            && p == ConnectResolved(if code == Success then Ok(st.lossRx) else Err(AC.Failure(RefusalText(code))))
  {
  }

  /** A connect whose CONNACK never comes fails once its broadcast is closed: the
      adapter is dropped while the loop runs, the loop then sees the shutdown and
      ends, and the token's receive reports the closed channel. */
  lemma ConnectFailsOnceLoopGone(st: AdapterState)
    requires st.loop.phase.Running? && !st.shutdown
    ensures var (s1, t) := ConnectStep(st);
            var s3 := LoopStep(DropStep(s1), ShutdownFired);
            s3.loop.phase == Stopped
            && PollConnect(s3, t.value).2 == ConnectResolved(Err(AC.Failure(CLOSED_TEXT)))
  {
    var (s1, t) := ConnectStep(st);
    var s2 := DropStep(s1);
    assert s2.loop.phase.Running? && s2.shutdown && s2.loop.connAcks == st.loop.connAcks;
    var s3 := LoopStep(s2, ShutdownFired);
    assert s3.loop == Step(s2.loop, ShutdownFired);
  }

  /** `disconnect`: queues a disconnect without waiting, or fails with the client's
      error when the request channel is full or closed; the returned token is
      ready at once with `Ok(())`. */
  function DisconnectStep(st: AdapterState)
    : (r: (AdapterState, Result<AC.TokenDisconnect<Result<(), AC.ConnectionError>>, AC.ConnectionError>))
    ensures r.1.Ok? <==> !st.loop.phase.Panicked? && |st.loop.requests| < REQUEST_CAPACITY
    ensures r.1.Ok? ==> r.0.loop.requests == st.loop.requests + [DisconnectRequest]
                        && AC.AwaitDisconnect(r.1.value) == (Ok(()), 1)
    ensures r.1.Err? ==> r.0 == st && r.1.error == AC.Failure(CLIENT_ERROR_TEXT)
  {
    if !st.loop.phase.Panicked? && |st.loop.requests| < REQUEST_CAPACITY then
      (st.(loop := Enqueue(st.loop, DisconnectRequest)), Ok(AC.TokenDisconnect(AC.Future(0, Ok(())))))
    else (st, Err(AC.Failure(CLIENT_ERROR_TEXT)))
  }

  /** Dropping the adapter: a disconnect is attempted and its outcome ignored, the
      loop's token is cancelled, and the run switch's sender goes away. */
  function DropStep(st: AdapterState): AdapterState {
    var st1 := DisconnectStep(st).0;
    st1.(shutdown := true, loop := DropRunSender(st1.loop))
  }

  // ---------------------------------------------------------------------------
  // Everything that can happen next

  datatype Action =
    | PublishMsg(msg: DataSourceCore.MsgBusData)
    | RunTask(i: nat)
    | Wire(pkid: u16)
    | Loop(ev: LoopEvent)
    | LoopStarts
    | Password
    | AnaRenew(attempts: seq<Result<Ana.Response, string>>, now: nat)
    | ConnectCall
    | PollConnectToken(t: ConnectToken)
    | DisconnectCall
    | DropCall

  /** A move of the system as written; a publish task takes its two awaits as two moves. */
  function AsWritten(st: AdapterState, a: Action): AdapterState {
    match a
    case RunTask(i) => TaskAdvance(st, i)
    case _ => Common(st, a)
  }

  /** A move of the system with each publish task queueing registration and publish together. */
  function Corrected(st: AdapterState, a: Action): AdapterState {
    match a
    case RunTask(i) => TaskAdvanceAtomically(st, i)
    case _ => Common(st, a)
  }

  function Common(st: AdapterState, a: Action): AdapterState {
    match a
    case PublishMsg(msg) => PublishStep(st, msg).0
    case RunTask(_) => st
    case Wire(pkid) => WireOut(st, pkid)
    case Loop(ev) => LoopStep(st, ev)
    case LoopStarts => SubscribeStep(st)
    case Password => PasswordStep(st)
    case AnaRenew(attempts, now) => AnaRenewal(st, attempts, now)
    case ConnectCall => ConnectStep(st).0
    case PollConnectToken(t) => PollConnect(st, t).0
    case DisconnectCall => DisconnectStep(st).0
    case DropCall => DropStep(st)
  }

  function CorrectedRun(st: AdapterState, actions: seq<Action>): AdapterState
    decreases |actions|
  {
    if |actions| == 0 then st else CorrectedRun(Corrected(st, actions[0]), actions[1..])
  }

  // ---------------------------------------------------------------------------
  // Pairing acknowledgements with messages

  function RegIds(regs: seq<Registration>): (r: seq<u32>)
    ensures |r| == |regs|
    decreases |regs|
  {
    if |regs| == 0 then [] else [regs[0].msgId] + RegIds(regs[1..])
  }

  /** The message ids of the publish requests waiting in the request channel, in order. */
  function PublishOrigins(reqs: seq<Request>): seq<u32>
    decreases |reqs|
  {
    if |reqs| == 0 then []
    else (if reqs[0].PublishRequest? then [reqs[0].origin] else []) + PublishOrigins(reqs[1..])
  }

  lemma {:induction false} RegIdsAppend(regs: seq<Registration>, r: Registration)
    ensures RegIds(regs + [r]) == RegIds(regs) + [r.msgId]
    decreases |regs|
  {
    if |regs| > 0 {
      RegIdsAppend(regs[1..], r);
      assert (regs + [r])[1..] == regs[1..] + [r];
    }
  }

  lemma {:induction false} PublishOriginsAppend(reqs: seq<Request>, r: Request)
    ensures PublishOrigins(reqs + [r]) == PublishOrigins(reqs) + (if r.PublishRequest? then [r.origin] else [])
    decreases |reqs|
  {
    if |reqs| > 0 {
      PublishOriginsAppend(reqs[1..], r);
      assert (reqs + [r])[1..] == reqs[1..] + [r];
    }
  }

  /** The pairing invariant: while the loop lives, the queued registrations are
      for exactly the queued publishes, in the same order; every filed
      registration is for the message whose payload went out under its packet
      id; and no task sits between its two sends. */
  predicate Aligned(st: AdapterState) {
    (Live(st.loop) ==> RegIds(st.loop.regs) == PublishOrigins(st.loop.requests))
    && (forall p :: p in st.loop.ackMap ==> p in st.wire && st.loop.ackMap[p].msgId == st.wire[p])
    && (forall i :: 0 <= i < |st.tasks| ==>
          !st.tasks[i].stage.ToWrite?
          && st.tasks[i].request.PublishRequest? && st.tasks[i].request.origin == st.tasks[i].msgId)
  }

  lemma InitialAligned(s: Settings)
    ensures Aligned(Initial(s))
  {
  }

  /** What a loop step the environment completes does to the pairing state: the
      queued registrations stay while the loop lives, no publish is queued or
      taken, and the table only loses entries. */
  lemma LoopStepShape(s: LoopState, ev: LoopEvent)
    requires !(ev.Polled? && ev.result.Ok? && ev.result.value.Outgoing? && ev.result.value.out.OutPublish?)
    ensures var t := Step(s, ev);
            (Live(t) ==> Live(s) && t.regs == s.regs)
            && PublishOrigins(t.requests) == PublishOrigins(s.requests)
            && (forall p :: p in t.ackMap ==> p in s.ackMap && t.ackMap[p] == s.ackMap[p])
  {
    ArmShape(s, ev);
  }

  /** The same for the branch alone, before the task's end is considered. */
  lemma ArmShape(s: LoopState, ev: LoopEvent)
    requires !(ev.Polled? && ev.result.Ok? && ev.result.value.Outgoing? && ev.result.value.out.OutPublish?)
    ensures var t := Arm(s, ev);
            (Live(t) ==> Live(s)) && t.regs == s.regs
            && PublishOrigins(t.requests) == PublishOrigins(s.requests)
            && (forall p :: p in t.ackMap ==> p in s.ackMap && t.ackMap[p] == s.ackMap[p])
  {
    if ev.PasswordUpdated? {
      PublishOriginsAppend(s.requests, DisconnectRequest);
    }
  }

  /** An outgoing publish taken off a request channel whose publishes match the
      queued registrations files the registration of the very message sent. */
  lemma WireOutKeepsAligned(st: AdapterState, pkid: u16)
    requires Aligned(st)
    ensures Aligned(WireOut(st, pkid))
  {
    if st.loop.phase.Running? && |st.loop.requests| > 0 {
      var reqs := st.loop.requests;
      if reqs[0].PublishRequest? {
        WirePublishKeepsAligned(st, pkid);
      } else {
        LoopStepShape(Dequeue(st.loop), Polled(Ok(Outgoing(if reqs[0].SubscribeRequest? then OutSubscribe(pkid) else OutDisconnect))));
        assert reqs == [reqs[0]] + reqs[1..];
        assert PublishOrigins(reqs) == PublishOrigins(reqs[1..]);
      }
    }
  }

  /** The publish at the head of the request channel goes out and is filed with
      the head registration, which is for the same message. */
  lemma WirePublishKeepsAligned(st: AdapterState, pkid: u16)
    requires Aligned(st) && st.loop.phase.Running? && |st.loop.requests| > 0 && st.loop.requests[0].PublishRequest?
    ensures Aligned(WireOut(st, pkid))
  {
    var reqs := st.loop.requests;
    var regs := st.loop.regs;
    assert reqs == [reqs[0]] + reqs[1..];
    assert PublishOrigins(reqs) == [reqs[0].origin] + PublishOrigins(reqs[1..]);
    assert Live(st.loop);
    assert RegIds(regs) == PublishOrigins(reqs);
    assert |regs| > 0;
    assert RegIds(regs) == [regs[0].msgId] + RegIds(regs[1..]);
    assert regs[0].msgId == RegIds(regs)[0] == reqs[0].origin;
    assert RegIds(regs[1..]) == RegIds(regs)[1..] == PublishOrigins(reqs[1..]);
    var st' := WireOut(st, pkid);
    assert st'.loop == OnOutgoingPublish(Dequeue(st.loop), pkid);
  }

  lemma AtomicPublishKeepsAligned(st: AdapterState, i: nat)
    requires Aligned(st)
    ensures Aligned(TaskAdvanceAtomically(st, i))
  {
    if i < |st.tasks| && st.tasks[i].stage.ToRegister? && Live(st.loop)
       && |st.loop.regs| < ACK_CHANNEL_CAPACITY && |st.loop.requests| < REQUEST_CAPACITY {
      var task := st.tasks[i];
      RegIdsAppend(st.loop.regs, Registration(task.msgId, |st.loop.slots|));
      PublishOriginsAppend(st.loop.requests, task.request);
    }
  }

  lemma LoopStepKeepsAligned(st: AdapterState, ev: LoopEvent)
    requires Aligned(st)
    ensures Aligned(LoopStep(st, ev))
  {
    if FromEnvironment(st, ev) {
      LoopStepShape(st.loop, ev);
    }
  }

  lemma PasswordStepKeepsAligned(st: AdapterState)
    requires Aligned(st)
    ensures Aligned(PasswordStep(st))
  {
    LoopStepShape(st.loop, PasswordUpdated(Ok("")));
    if (st.loop.phase.AwaitingPassword? || st.loop.phase.Running?) && st.pwRx.Some?
       && st.pwRx.value.next <= |st.ana.broadcasts| {
      var (got, rx) := Ana.PasswordUpdated(st.ana, st.pwRx.value);
      if got.Some? {
        var ev := if got.value.Ok? then PasswordUpdated(Ok(got.value.value))
                  else PasswordUpdated(Err(Ana.AnaErrorText(got.value.error)));
        LoopStepShape(st.loop, ev);
      }
    }
  }

  lemma ConnectKeepsAligned(st: AdapterState)
    requires Aligned(st)
    ensures Aligned(ConnectStep(st).0)
  {
  }

  lemma PollConnectKeepsAligned(st: AdapterState, t: ConnectToken)
    requires Aligned(st)
    ensures Aligned(PollConnect(st, t).0)
  {
    PublishOriginsAppend(st.loop.requests, SubscribeRequest(st.creds.topicCmd, AtLeastOnce));
  }

  lemma DisconnectKeepsAligned(st: AdapterState)
    requires Aligned(st)
    ensures Aligned(DisconnectStep(st).0) && Aligned(DropStep(st))
  {
    PublishOriginsAppend(st.loop.requests, DisconnectRequest);
  }

  /** Every move of the corrected system keeps the pairing invariant. */
  lemma CorrectedKeepsAligned(st: AdapterState, a: Action)
    requires Aligned(st)
    ensures Aligned(Corrected(st, a))
  {
    match a
    case PublishMsg(msg) =>
    case RunTask(i) => AtomicPublishKeepsAligned(st, i);
    case Wire(pkid) => WireOutKeepsAligned(st, pkid);
    case Loop(ev) => LoopStepKeepsAligned(st, ev);
    case LoopStarts =>
    case Password => PasswordStepKeepsAligned(st);
    case AnaRenew(_, _) =>
    case ConnectCall => ConnectKeepsAligned(st);
    case PollConnectToken(t) => PollConnectKeepsAligned(st, t);
    case DisconnectCall => DisconnectKeepsAligned(st);
    case DropCall => DisconnectKeepsAligned(st);
  }

  lemma {:induction false} CorrectedRunKeepsAligned(st: AdapterState, actions: seq<Action>)
    requires Aligned(st)
    ensures Aligned(CorrectedRun(st, actions))
    decreases |actions|
  {
    if |actions| > 0 {
      CorrectedKeepsAligned(st, actions[0]);
      CorrectedRunKeepsAligned(Corrected(st, actions[0]), actions[1..]);
    }
  }

  /** In the corrected system a PUBACK completes its registration with the id of
      the message whose payload went out under that packet id. */
  lemma AckConfirmsMessageOnWire(st: AdapterState, pkid: u16)
    requires Aligned(st) && WF(st.loop) && st.loop.phase.Running? && pkid in st.loop.ackMap
    ensures var st' := Corrected(st, Loop(Polled(Ok(Incoming(PubAck(pkid))))));
            var slot := st.loop.ackMap[pkid].slot;
            slot < |st'.loop.slots| && st'.loop.slots[slot] == Fulfilled(st.wire[pkid])
            && pkid !in st'.loop.ackMap
  {
    PubAckCompletesFiledTask(st.loop, pkid);
  }

  function AsWrittenRun(st: AdapterState, actions: seq<Action>): AdapterState
    decreases |actions|
  {
    if |actions| == 0 then st else AsWrittenRun(AsWritten(st, actions[0]), actions[1..])
  }

  /** Two publish tasks that both register before either hands over its publish,
      the second one handing over first. */
  function Interleaving(a: DataSourceCore.MsgBusData, b: DataSourceCore.MsgBusData): seq<Action> {
    [PublishMsg(a), PublishMsg(b), RunTask(0), RunTask(1), RunTask(1), RunTask(0)]
  }

  lemma InterleavingSteps(st: AdapterState, a: DataSourceCore.MsgBusData, b: DataSourceCore.MsgBusData)
    ensures var s2 := AsWritten(AsWritten(st, PublishMsg(a)), PublishMsg(b));
            var s4 := AsWritten(AsWritten(s2, RunTask(0)), RunTask(1));
            AsWrittenRun(st, Interleaving(a, b)) == AsWritten(AsWritten(s4, RunTask(1)), RunTask(0))
  {
    var acts := Interleaving(a, b);
    var s1 := AsWritten(st, PublishMsg(a));
    var s2 := AsWritten(s1, PublishMsg(b));
    var s3 := AsWritten(s2, RunTask(0));
    var s4 := AsWritten(s3, RunTask(1));
    var s5 := AsWritten(s4, RunTask(1));
    var s6 := AsWritten(s5, RunTask(0));
    assert AsWrittenRun(st, acts) == AsWrittenRun(s1, acts[1..]);
    assert acts[1..][1..] == acts[2..] && acts[2..][1..] == acts[3..];
    assert acts[3..][1..] == acts[4..] && acts[4..][1..] == acts[5..] && acts[5..][1..] == [];
    assert AsWrittenRun(s1, acts[1..]) == AsWrittenRun(s2, acts[2..]);
    assert AsWrittenRun(s2, acts[2..]) == AsWrittenRun(s3, acts[3..]);
    assert AsWrittenRun(s3, acts[3..]) == AsWrittenRun(s4, acts[4..]);
    assert AsWrittenRun(s4, acts[4..]) == AsWrittenRun(s5, acts[5..]);
    assert AsWrittenRun(s5, acts[5..]) == AsWrittenRun(s6, []);
  }

  /** Two publish tasks that have both taken their first await: both are
      registered, in order, and neither publish is queued yet. */
  lemma BothRegistered(st: AdapterState, a: DataSourceCore.MsgBusData, b: DataSourceCore.MsgBusData)
    requires st.loop.phase.Running? && st.loop.regs == [] && st.loop.requests == [] && st.loop.ackMap == map[]
    requires st.tasks == []
    ensures var n := |st.loop.slots|;
            var s2 := AsWritten(AsWritten(st, PublishMsg(a)), PublishMsg(b));
            var s4 := AsWritten(AsWritten(s2, RunTask(0)), RunTask(1));
            s4.loop.phase.Running? && s4.loop.ackMap == map[] && s4.loop.requests == []
            && s4.loop.regs == [Registration(a.id, n), Registration(b.id, n + 1)]
            && |s4.tasks| == 2 && s4.tasks[0].stage == ToWrite(n) && s4.tasks[1].stage == ToWrite(n + 1)
            && s4.tasks[0].request.PublishRequest? && s4.tasks[0].request.origin == a.id
            && s4.tasks[1].request.PublishRequest? && s4.tasks[1].request.origin == b.id
            && |s4.loop.slots| == n + 2 && s4.loop.slots[n] == Waiting
  {
    var n := |st.loop.slots|;
    var s1 := AsWritten(st, PublishMsg(a));
    assert s1 == PublishStep(st, a).0;
    var s2 := AsWritten(s1, PublishMsg(b));
    assert s2 == PublishStep(s1, b).0;
    assert s2.loop == st.loop;
    assert s2.tasks[0].stage == ToRegister && s2.tasks[1].stage == ToRegister;
    var s3 := AsWritten(s2, RunTask(0));
    assert s3 == TaskAdvance(s2, 0);
    assert s3.loop.regs == [Registration(a.id, n)] && s3.tasks[0].stage == ToWrite(n);
    var s4 := AsWritten(s3, RunTask(1));
    assert s4 == TaskAdvance(s3, 1);
    assert s4.loop.regs == [Registration(a.id, n), Registration(b.id, n + 1)];
  }

  /** After that interleaving the registrations are queued in the order 1, 2 and
      the publishes in the order 2, 1. */
  lemma InterleavedQueues(st: AdapterState, pa: seq<u8>, pb: seq<u8>)
    requires st.loop.phase.Running? && st.loop.regs == [] && st.loop.requests == [] && st.loop.ackMap == map[]
    requires st.tasks == []
    ensures var n := |st.loop.slots|;
            var s6 := AsWrittenRun(st, Interleaving(DataSourceCore.MsgBusData(1, pa, 0), DataSourceCore.MsgBusData(2, pb, 0)));
            s6.loop.phase.Running? && s6.loop.ackMap == map[]
            && s6.loop.regs == [Registration(1, n), Registration(2, n + 1)]
            && |s6.loop.requests| == 2
            && s6.loop.requests[0].PublishRequest? && s6.loop.requests[0].origin == 2
            && s6.loop.requests[1].PublishRequest? && s6.loop.requests[1].origin == 1
            && |s6.tasks| == 2 && s6.tasks[0].stage == AwaitingAck(n)
            && |s6.loop.slots| == n + 2 && s6.loop.slots[n] == Waiting
  {
    var a := DataSourceCore.MsgBusData(1, pa, 0);
    var b := DataSourceCore.MsgBusData(2, pb, 0);
    InterleavingSteps(st, a, b);
    BothRegistered(st, a, b);
    var s2 := AsWritten(AsWritten(st, PublishMsg(a)), PublishMsg(b));
    var s4 := AsWritten(AsWritten(s2, RunTask(0)), RunTask(1));
    SecondHandsOverFirst(s4, |st.loop.slots|);
  }

  /** Both tasks registered; the second hands over its publish, then the first. */
  lemma SecondHandsOverFirst(s4: AdapterState, n: nat)
    requires s4.loop.phase.Running? && s4.loop.requests == []
    requires |s4.tasks| == 2 && s4.tasks[0].stage == ToWrite(n) && s4.tasks[1].stage == ToWrite(n + 1)
    ensures var s6 := AsWritten(AsWritten(s4, RunTask(1)), RunTask(0));
            s6.loop == s4.loop.(requests := [s4.tasks[1].request, s4.tasks[0].request])
            && |s6.tasks| == 2 && s6.tasks[0].stage == AwaitingAck(n)
  {
    var s5 := AsWritten(s4, RunTask(1));
    assert s5 == TaskAdvance(s4, 1);
    assert s5.loop.requests == [s4.tasks[1].request];
    var s6 := AsWritten(s5, RunTask(0));
    assert s6 == TaskAdvance(s5, 0);
  }

  /** From queues in that order, the first packet out carries message 2 and takes
      the registration of message 1, so the PUBACK of message 2 completes the task
      of message 1. */
  lemma CrossedQueuesMispair(s: AdapterState, n: nat)
    requires s.loop.phase.Running? && s.loop.ackMap == map[]
    requires s.loop.regs == [Registration(1, n), Registration(2, n + 1)]
    requires |s.loop.requests| == 2 && s.loop.requests[0].PublishRequest? && s.loop.requests[0].origin == 2
    requires |s.tasks| > 0 && s.tasks[0].stage == AwaitingAck(n)
    requires n < |s.loop.slots| && s.loop.slots[n] == Waiting
    ensures var s8 := AsWritten(AsWritten(s, Wire(5)), Loop(Polled(Ok(Incoming(PubAck(5))))));
            5 in s8.wire && s8.wire[5] == 2
            && 0 < |s8.tasks| && TaskOutcome(s8, 0) == Some(HT.Joined(Ok(1)))
  {
    var s7 := AsWritten(s, Wire(5));
    assert s7.loop == OnOutgoingPublish(Dequeue(s.loop), 5);
    assert s7.wire[5] == 2;
    assert s7.loop.ackMap[5] == Registration(1, n);
    var s8 := AsWritten(s7, Loop(Polled(Ok(Incoming(PubAck(5))))));
    assert s8.loop == OnPubAck(s7.loop, 5);
    assert s8.loop.slots[n] == Fulfilled(1);
  }

  /** As written, two publish tasks can interleave their awaits so that the first
      registration is paired with the second message: the broker acknowledges the
      payload of message 2 and the token of message 1 reports it delivered. The
      interleaving breaks the pairing invariant. */
  lemma AsWrittenMispairs(st: AdapterState, pa: seq<u8>, pb: seq<u8>)
    requires st.loop.phase.Running? && st.loop.regs == [] && st.loop.requests == [] && st.loop.ackMap == map[]
    requires st.tasks == []
    ensures var s6 := AsWrittenRun(st, Interleaving(DataSourceCore.MsgBusData(1, pa, 0), DataSourceCore.MsgBusData(2, pb, 0)));
            var s8 := AsWritten(AsWritten(s6, Wire(5)), Loop(Polled(Ok(Incoming(PubAck(5))))));
            !Aligned(s6) && 5 in s8.wire && s8.wire[5] == 2
            && 0 < |s8.tasks| && TaskOutcome(s8, 0) == Some(HT.Joined(Ok(1)))
  {
    var s6 := AsWrittenRun(st, Interleaving(DataSourceCore.MsgBusData(1, pa, 0), DataSourceCore.MsgBusData(2, pb, 0)));
    var n := |st.loop.slots|;
    InterleavedQueues(st, pa, pb);
    CrossedQueuesMispair(s6, n);
    CrossedQueuesNotAligned(s6, n);
  }

  /** Registrations queued as 1, 2 against publishes queued as 2, 1 break the pairing. */
  lemma CrossedQueuesNotAligned(s: AdapterState, n: nat)
    requires s.loop.phase.Running?
    requires s.loop.regs == [Registration(1, n), Registration(2, n + 1)]
    requires |s.loop.requests| == 2
    requires s.loop.requests[0].PublishRequest? && s.loop.requests[0].origin == 2
    requires s.loop.requests[1].PublishRequest? && s.loop.requests[1].origin == 1
    ensures !Aligned(s)
  {
    var reqs := s.loop.requests;
    assert reqs[1..][1..] == [];
    assert PublishOrigins(reqs[1..]) == [1];
    assert PublishOrigins(reqs) == [2, 1];
    assert RegIds(s.loop.regs) == [1, 2];
  }

  // ---------------------------------------------------------------------------
  // The adapter object

  /** `SpecialHiveMQ`, together with the event-loop task it spawned (`driver`), its
      transform's sequence counter and the AnA client it handed to that task. */
  class SpecialHiveMQ {
    const creds: Credentials
    const driver: EventLoop
    const transform: SparkplugSequence.Sequence
    const ana: Ana.SpecialAnA
    const lossRx: WatchRx
    var tasks: seq<PublishTask>
    var wire: map<u16, u32>
    var pwRx: Option<BroadcastRx>
    var shutdown: bool

    function State(): AdapterState
      reads this, driver, transform, ana
    {
      AdapterState(creds, driver.State(), transform.next, tasks, wire, ana.State(), pwRx, lossRx, shutdown)
    }

    /** The infallible part of `new`, once the settings are in hand: the channels,
        the event-loop task and the transform. */
    constructor(s: Settings)
      ensures fresh(driver) && fresh(transform) && fresh(ana)
      ensures State() == Initial(s)
    {
      creds := s.creds;
      driver := new EventLoop(s.creds.username);
      transform := new SparkplugSequence.Sequence();
      ana := new Ana.SpecialAnA(s.ana);
      pwRx := None;
      lossRx := WatchRx(0);
      tasks, wire, shutdown := [], map[], false;
    }

    method Publish(msg: DataSourceCore.MsgBusData) returns (token: HT.DeliveryToken)
      modifies this, transform
      ensures (State(), token) == PublishStep(old(State()), msg)
    {
      var seqNo := transform.Pull();
      var request := PublishRequest(creds.topicData, AtLeastOnce, false, Payload(seqNo, msg.payload), msg.id);
      token := HT.DeliveryToken(msg.id, |tasks|);
      tasks := tasks + [PublishTask(msg.id, request, ToRegister)];
    }

    /** Task `i` runs to its next await. */
    method AdvanceTask(i: nat)
      modifies this, driver
      ensures State() == TaskAdvance(old(State()), i)
    {
      if i < |tasks| {
        var task := tasks[i];
        match task.stage {
          case ToRegister =>
            if !Live(driver.State()) {
              tasks := tasks[i := task.(stage := TaskPanicked(UNWRAP_PANIC))];
            } else if |driver.regs| < ACK_CHANNEL_CAPACITY {
              var slot := driver.RegisterAck(task.msgId);
              tasks := tasks[i := task.(stage := ToWrite(slot))];
            }
          case ToWrite(slot) =>
            if driver.phase.Panicked? || (shutdown && !Live(driver.State())) {
              tasks := tasks[i := task.(stage := TaskPanicked(UNWRAP_PANIC))];
            } else if |driver.requests| < REQUEST_CAPACITY {
              driver.QueueRequest(task.request);
              tasks := tasks[i := task.(stage := AwaitingAck(slot))];
            }
          case _ =>
        }
      }
    }

    /** rumqttc sends the oldest queued request; a publish goes out under `pkid`. */
    method SendNextRequest(pkid: u16)
      modifies this, driver
      ensures State() == WireOut(old(State()), pkid)
    {
      if driver.phase.Running? && |driver.requests| > 0 {
        var head := driver.requests[0];
        driver.TakeRequest();
        match head {
          case PublishRequest(_, _, _, _, origin) =>
            wire := wire[pkid := origin];
            driver.HandleEvent(Polled(Ok(Outgoing(OutPublish(pkid)))));
          case SubscribeRequest(_, _) =>
            driver.HandleEvent(Polled(Ok(Outgoing(OutSubscribe(pkid)))));
          case DisconnectRequest =>
            driver.HandleEvent(Polled(Ok(Outgoing(OutDisconnect))));
        }
      }
    }

    /** A branch of the loop's select! that the environment completes. */
    method Deliver(ev: LoopEvent)
      modifies driver
      ensures State() == LoopStep(old(State()), ev)
    {
      if FromEnvironment(State(), ev) {
        driver.HandleEvent(ev);
      }
    }

    /** The loop task's first statement: it subscribes to the AnA client's renewals. */
    method StartLoop()
      modifies this
      ensures State() == SubscribeStep(old(State()))
    {
      if pwRx.None? {
        var rx := ana.GetTokenRenewal();
        pwRx := Some(rx);
      }
    }

    /** The loop's password branch reads its renewal receiver. */
    method DeliverPassword()
      modifies this, driver
      ensures State() == PasswordStep(old(State()))
    {
      if (driver.phase.AwaitingPassword? || driver.phase.Running?) && pwRx.Some? && pwRx.value.next <= |ana.broadcasts| {
        var (got, rx) := Ana.PasswordUpdated(ana.State(), pwRx.value);
        match got {
          case None =>
          case Some(Ok(p)) =>
            pwRx := Some(rx);
            driver.HandleEvent(PasswordUpdated(Ok(p)));
          case Some(Err(e)) =>
            pwRx := Some(rx);
            driver.HandleEvent(PasswordUpdated(Err(Ana.AnaErrorText(e))));
        }
      }
    }

    /** One round of the AnA client's renewal task. */
    method RenewPassword(attempts: seq<Result<Ana.Response, string>>, now: nat) returns (outcome: Option<(nat, u64)>)
      modifies ana
      ensures State() == AnaRenewal(old(State()), attempts, now)
      ensures outcome == Ana.Renew(old(State()).ana, attempts, now).1
    {
      outcome := ana.RenewRound(attempts, now);
    }

    method Connect() returns (r: Result<ConnectToken, AC.ConnectionError>)
      modifies driver
      ensures (State(), r) == ConnectStep(old(State()))
    {
      driver.SetRunSwitch(true);
      r := Ok(AwaitingCode(BroadcastRx(|driver.connAcks|)));
    }

    /** One poll of a connection token's future. */
    method PollConnection(t: ConnectToken) returns (t': ConnectToken, p: ConnectPoll)
      modifies driver
      ensures (State(), t', p) == PollConnect(old(State()), t)
    {
      var code: ConnectReturnCode;
      match t {
        case Subscribing(c) => code := c;
        case AwaitingCode(rx) =>
          if rx.next > |driver.connAcks| {
            t', p := t, StillConnecting;
            return;
          }
          var (got, rx') := BroadcastRecv(driver.connAcks, rx);
          match got {
            case Empty =>
              if shutdown && !Live(driver.State()) {
                t', p := t, ConnectResolved(Err(AC.Failure(CLOSED_TEXT)));
              } else {
                t', p := t, StillConnecting;
              }
              return;
            case Lagged(n) =>
              t', p := AwaitingCode(rx'), ConnectResolved(Err(AC.Failure(LaggedText(n))));
              return;
            case Received(c) => code := c;
          }
      }
      t' := Subscribing(code);
      if driver.phase.Panicked? || (shutdown && !Live(driver.State())) {
        p := ConnectPanicked(UNWRAP_PANIC);
      } else if |driver.requests| < REQUEST_CAPACITY {
        driver.QueueRequest(SubscribeRequest(creds.topicCmd, AtLeastOnce));
        if code == Success {
          p := ConnectResolved(Ok(lossRx));
        } else {
          p := ConnectResolved(Err(AC.Failure(RefusalText(code))));
        }
      } else {
        p := StillConnecting;
      }
    }

    method Disconnect() returns (r: Result<AC.TokenDisconnect<Result<(), AC.ConnectionError>>, AC.ConnectionError>)
      modifies driver
      ensures (State(), r) == DisconnectStep(old(State()))
    {
      if !driver.phase.Panicked? && |driver.requests| < REQUEST_CAPACITY {
        driver.QueueRequest(DisconnectRequest);
        r := Ok(AC.TokenDisconnect(AC.Future(0, Ok(()))));
      } else {
        r := Err(AC.Failure(CLIENT_ERROR_TEXT));
      }
    }

    method Drop()
      modifies this, driver
      ensures State() == DropStep(old(State()))
    {
      var _ := Disconnect();
      shutdown := true;
      driver.DropRunSwitch();
    }
  }
}
