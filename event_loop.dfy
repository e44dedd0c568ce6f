/** The HiveMQ adapter's event-loop task. It owns rumqttc's event loop and the
    table that pairs MQTT packet ids with the delivery tokens of publish tasks.

    One step of the model is one completed branch of the task's `select!`:
    shutdown, a change of the run switch, a new password, or one result of
    polling rumqttc. The loop's state also holds what it shares with the adapter
    through channels: the registrations queued by publish tasks, the receiving
    side of each task's oneshot channel (`slots`), the run switch, the
    connection-loss watch, the CONNACK codes it has broadcast, and the requests
    waiting in the client's request channel. */
module HiveMQEventLoop {
  import opened Wrappers
  import opened Ints
  import opened Mqtt
  import opened AdapterCore
  import opened Channels

  /** The receiving side of one publish task's oneshot channel: still waiting,
      completed with a message id, or closed because its sender was dropped. */
  datatype Slot = Waiting | Fulfilled(msgId: u32) | Dropped

  /** What a publish task queues before its publish: the message id and the
      sender of its oneshot channel, named by the slot it completes. */
  datatype Registration = Registration(msgId: u32, slot: nat)

  datatype Phase =
    | AwaitingPassword   // before the first password arrives
    | Running            // inside 'main, polling
    | Paused             // blocked in the inner loop until the run switch turns on
    | Stopped            // 'main was left
    | Panicked(reason: string)

  /** The run switch as the loop's watch receiver sees it. */
  datatype RunCell = RunCell(value: bool, unseen: bool, senderAlive: bool)

  datatype LoopState = LoopState(
    phase: Phase,
    cancelled: bool,
    ackMap: map<u16, Registration>,
    regs: seq<Registration>,
    slots: seq<Slot>,
    run: RunCell,
    username: string,
    password: Option<string>,
    lost: Watch<ConnectionLost>,
    connAcks: seq<ConnectReturnCode>,
    requests: seq<Request>)

  datatype LoopEvent =
    | ShutdownFired
    | RunChanged
    | PasswordUpdated(update: Result<string, string>)
    | Polled(result: Result<Event, PollError>)

  /** The registration channel is created with room for ten entries. */
  const ACK_CHANNEL_CAPACITY: nat := 10

  const TODO_PANIC: string := "not yet implemented"

  /** The task is still alive and holds its channel ends. */
  predicate Live(s: LoopState) {
    s.phase.AwaitingPassword? || s.phase.Running? || s.phase.Paused?
  }

  /** State when the task is spawned: the run switch was set to false once after the
      channel was made, so its first change is already pending; the loss watch holds
      the placeholder value. */
  function Init(username: string): (s: LoopState)
    ensures Live(s) && WF(s) && s.run.unseen && !s.run.value
  {
    LoopState(AwaitingPassword, false, map[], [], [], RunCell(false, true, true), username, None,
              Watch(Uncategorized("init"), 0), [], [])
  }

  // ---------------------------------------------------------------------------
  // Oneshot slots

  /** Sending `id` on the oneshot of slot `i`. */
  function Fulfil(slots: seq<Slot>, i: nat, id: u32): seq<Slot> {
    if i < |slots| && slots[i].Waiting? then slots[i := Fulfilled(id)] else slots
  }

  /** Dropping the sender of slot `i`: its receiver sees the channel closed. */
  function Close(slots: seq<Slot>, i: nat): seq<Slot> {
    if i < |slots| && slots[i].Waiting? then slots[i := Dropped] else slots
  }

  /** Dropping the senders of every slot in `idx`. */
  function CloseAll(slots: seq<Slot>, idx: set<nat>): (r: seq<Slot>)
    ensures |r| == |slots|
    ensures forall i :: 0 <= i < |slots| ==> r[i] == (if i in idx && slots[i].Waiting? then Dropped else slots[i])
  {
    seq(|slots|, i requires 0 <= i < |slots| => if i in idx && slots[i].Waiting? then Dropped else slots[i])
  }

  function MapSlots(m: map<u16, Registration>): set<nat> {
    set p | p in m :: m[p].slot
  }

  function RegSlots(regs: seq<Registration>): set<nat> {
    set i | 0 <= i < |regs| :: regs[i].slot
  }

  /** Every slot some sender still reaches: in the table or queued. */
  function Held(s: LoopState): set<nat> {
    MapSlots(s.ackMap) + RegSlots(s.regs)
  }

  // ---------------------------------------------------------------------------
  // The invariant

  predicate Waits(slots: seq<Slot>, r: Registration) {
    r.slot < |slots| && slots[r.slot] == Waiting
  }

  /** Every sender the loop holds is for a task that is still waiting. */
  predicate HoldsWaiting(m: map<u16, Registration>, regs: seq<Registration>, slots: seq<Slot>) {
    (forall p :: p in m ==> Waits(slots, m[p]))
    && (forall i :: 0 <= i < |regs| ==> Waits(slots, regs[i]))
  }

  /** No two senders the loop holds are for the same task. */
  predicate Exclusive(m: map<u16, Registration>, regs: seq<Registration>) {
    (forall p, q :: p in m && q in m && p != q ==> m[p].slot != m[q].slot)
    && (forall i, j :: 0 <= i < j < |regs| ==> regs[i].slot != regs[j].slot)
    && (forall p, i :: p in m && 0 <= i < |regs| ==> m[p].slot != regs[i].slot)
  }

  /** Every task still waiting has its sender held by the loop, in the table or queued. */
  predicate NoOrphan(m: map<u16, Registration>, regs: seq<Registration>, slots: seq<Slot>) {
    forall i :: 0 <= i < |slots| && slots[i].Waiting? ==> i in MapSlots(m) + RegSlots(regs)
  }

  /** The invariant of the loop's bookkeeping. */
  predicate WF(s: LoopState) {
    HoldsWaiting(s.ackMap, s.regs, s.slots) && Exclusive(s.ackMap, s.regs) && NoOrphan(s.ackMap, s.regs, s.slots)
  }

  // ---------------------------------------------------------------------------
  // The arms of the select!

  /** `ack_map.remove(&pkid)` and completing the removed task's oneshot; an
      unknown packet id is only logged. */
  function OnPubAck(s: LoopState, pkid: u16): LoopState {
    if pkid in s.ackMap then
      var reg := s.ackMap[pkid];
      s.(ackMap := s.ackMap - {pkid}, slots := Fulfil(s.slots, reg.slot, reg.msgId))
    else s
  }

  /** An outgoing publish takes the oldest queued registration (`try_recv`) and files
      it under the packet id; a registration already filed under that id is dropped.
      With no registration queued the mismatch is only logged. */
  function OnOutgoingPublish(s: LoopState, pkid: u16): LoopState {
    if |s.regs| == 0 then s
    else
      var slots := if pkid in s.ackMap then Close(s.slots, s.ackMap[pkid].slot) else s.slots;
      s.(ackMap := s.ackMap[pkid := s.regs[0]], regs := s.regs[1..], slots := slots)
  }

  /** The reason reported on the loss watch for each polling error. */
  function Classify(e: PollError): ConnectionLost {
    match e
    case MqttState(_) => ManualDisconnect
    case NetworkTimeout => Timeout
    case OtherError(text) => Uncategorized(text)
  }

  /** A polling error: the table is cleared (dropping its senders) and the reason
      replaces the value of the loss watch. */
  function OnConnectionError(s: LoopState, e: PollError): LoopState {
    s.(ackMap := map[], slots := CloseAll(s.slots, MapSlots(s.ackMap)), lost := SendReplace(s.lost, Classify(e)))
  }

  function OnIncoming(s: LoopState, p: Packet): LoopState {
    match p
    case PubAck(pkid) => OnPubAck(s, pkid)
    case ConnAck(_, code) => s.(connAcks := s.connAcks + [code])
    case SubAck(_) => s
    case PingResp => s
    case Disconnect => s
    case _ => s.(phase := Panicked(TODO_PANIC))
  }

  function OnOutgoing(s: LoopState, o: Outgoing): LoopState {
    match o
    case OutPublish(pkid) => OnOutgoingPublish(s, pkid)
    case OutSubscribe(_) => s
    case OutPingReq => s
    case OutPingResp => s
    case OutDisconnect => s
    case _ => s.(phase := Panicked(TODO_PANIC))
  }

  function OnPoll(s: LoopState, r: Result<Event, PollError>): LoopState {
    match r
    case Ok(Incoming(p)) => OnIncoming(s, p)
    case Ok(Outgoing(o)) => OnOutgoing(s, o)
    case Err(e) => OnConnectionError(s, e)
  }

  /** The password arm. Before the loop starts a failed update panics (`unwrap`);
      inside the loop a new password replaces the credentials and queues a
      disconnect with `try_disconnect().unwrap()`, which panics when the request
      channel is full, and a failed update is only logged. */
  function OnPassword(s: LoopState, r: Result<string, string>): LoopState {
    match s.phase
    case AwaitingPassword =>
      (match r
       case Ok(p) => s.(password := Some(p), phase := Running)
       case Err(_) => s.(phase := Panicked(UNWRAP_PANIC)))
    case Running =>
      (match r
       case Ok(p) =>
         if |s.requests| < REQUEST_CAPACITY then s.(password := Some(p), requests := s.requests + [DisconnectRequest])
         else s.(password := Some(p), phase := Panicked(UNWRAP_PANIC))
       case Err(_) => s)
    case _ => s
  }

  /** The run-switch arm and the inner loop it enters. A pending change is read and
      marked seen: on, the loop runs; off, it blocks until the next change. When the
      switch's sender is gone, waiting for a change fails and the loop is left. */
  function OnRunChanged(s: LoopState): LoopState {
    if !(s.phase.Running? || s.phase.Paused?) then s
    else if s.run.unseen then
      var s1 := s.(run := s.run.(unseen := false));
      if s.run.value then s1.(phase := Running)
      else if s.run.senderAlive then s1.(phase := Paused)
      else s1.(phase := Stopped)
    else if s.run.senderAlive then s
    else if s.phase.Running? && s.run.value then s
    else s.(phase := Stopped)
  }

  /** Shutdown before the first password skips ahead to the main loop; inside it the
      loop is left; while blocked on the run switch it goes unnoticed. */
  function OnShutdown(s: LoopState): LoopState {
    match s.phase
    case AwaitingPassword => s.(cancelled := true, phase := Running)
    case Running => s.(cancelled := true, phase := Stopped)
    case _ => s.(cancelled := true)
  }

  /** When the task ends every sender it holds is dropped: those in the table and
      those still queued. */
  function Release(s: LoopState): LoopState {
    s.(ackMap := map[], regs := [], slots := CloseAll(s.slots, Held(s)))
  }

  function Arm(s: LoopState, ev: LoopEvent): LoopState {
    match ev
    case ShutdownFired => OnShutdown(s)
    case RunChanged => OnRunChanged(s)
    case PasswordUpdated(r) => OnPassword(s, r)
    case Polled(r) => if s.phase.Running? then OnPoll(s, r) else s
  }

  /** One completed branch of the select!; a branch that cannot complete in the
      current phase leaves the state as it is. */
  function Step(s: LoopState, ev: LoopEvent): LoopState {
    var t := Arm(s, ev);
    if Live(t) then t else Release(t)
  }

  function Steps(s: LoopState, evs: seq<LoopEvent>): LoopState
    decreases |evs|
  {
    if |evs| == 0 then s else Steps(Step(s, evs[0]), evs[1..])
  }

  // ---------------------------------------------------------------------------
  // What the adapter does through its channel ends

  /** A publish task queues its registration with a fresh oneshot channel. */
  function Register(s: LoopState, msgId: u32): LoopState {
    s.(regs := s.regs + [Registration(msgId, |s.slots|)], slots := s.slots + [Waiting])
  }

  /** `tx_run.send_replace(v)`. */
  function SetRun(s: LoopState, v: bool): LoopState {
    s.(run := RunCell(v, true, s.run.senderAlive))
  }

  function DropRunSender(s: LoopState): LoopState {
    s.(run := s.run.(senderAlive := false))
  }

  /** A request accepted by the client's request channel. */
  function Enqueue(s: LoopState, req: Request): LoopState {
    s.(requests := s.requests + [req])
  }

  /** rumqttc takes the oldest request off the channel. */
  function Dequeue(s: LoopState): LoopState
    requires |s.requests| > 0
  {
    s.(requests := s.requests[1..])
  }

  // ---------------------------------------------------------------------------
  // Properties

  /** A new registration keeps the invariant and is waiting. */
  lemma RegisterKeepsWF(s: LoopState, msgId: u32)
    requires WF(s)
    ensures WF(Register(s, msgId))
    ensures Register(s, msgId).slots[|s.slots|] == Waiting
  {
    var t := Register(s, msgId);
    var n := |s.slots|;
    assert t.regs[|s.regs|] == Registration(msgId, n);
    forall p | p in s.ackMap ensures s.ackMap[p].slot < n && Waits(t.slots, t.ackMap[p]) {
      assert Waits(s.slots, s.ackMap[p]);
    }
    forall i | 0 <= i < |t.regs| ensures Waits(t.slots, t.regs[i]) && (i < |s.regs| ==> t.regs[i].slot < n) {
      if i < |s.regs| {
        assert t.regs[i] == s.regs[i];
        assert Waits(s.slots, s.regs[i]);
      }
    }
    assert HoldsWaiting(t.ackMap, t.regs, t.slots);
    assert Exclusive(t.ackMap, t.regs);
    forall i | 0 <= i < |t.slots| && t.slots[i].Waiting? ensures i in Held(t) {
      if i < n {
        assert i in Held(s);
        if i in MapSlots(s.ackMap) {
          assert i in MapSlots(t.ackMap);
        } else {
          var k :| 0 <= k < |s.regs| && s.regs[k].slot == i;
          assert t.regs[k] == s.regs[k];
          assert i in RegSlots(t.regs);
        }
      } else {
        assert i in RegSlots(t.regs);
      }
    }
  }

  /** A PUBACK for a filed packet id completes exactly the task filed under it, with
      the message id it registered, and forgets the entry; no other task's outcome
      changes. */
  lemma PubAckCompletesFiledTask(s: LoopState, pkid: u16)
    requires WF(s) && s.phase.Running? && pkid in s.ackMap
    ensures var t := Step(s, Polled(Ok(Incoming(PubAck(pkid)))));
            var reg := s.ackMap[pkid];
            && t.slots[reg.slot] == Fulfilled(reg.msgId)
            && |t.slots| == |s.slots|
            && (forall i :: 0 <= i < |s.slots| && i != reg.slot ==> t.slots[i] == s.slots[i])
            && t.ackMap == s.ackMap - {pkid}
            && t.regs == s.regs && t.phase == s.phase
  {
    assert Waits(s.slots, s.ackMap[pkid]);
  }

  /** A PUBACK for a packet id not in the table changes nothing. */
  lemma UnknownPubAckIgnored(s: LoopState, pkid: u16)
    requires s.phase.Running? && pkid !in s.ackMap
    ensures Step(s, Polled(Ok(Incoming(PubAck(pkid))))) == s
  {
  }

  /** An outgoing publish files the oldest registration under its packet id and
      leaves the other entries alone; a registration it displaces has its task's
      channel closed. */
  lemma OutgoingPublishFilesOldest(s: LoopState, pkid: u16)
    requires WF(s) && s.phase.Running? && |s.regs| > 0
    ensures var t := Step(s, Polled(Ok(Outgoing(OutPublish(pkid)))));
            && t.ackMap[pkid] == s.regs[0]
            && t.regs == s.regs[1..]
            && (forall q :: q in s.ackMap && q != pkid ==> q in t.ackMap && t.ackMap[q] == s.ackMap[q])
            && (pkid in s.ackMap ==> t.slots[s.ackMap[pkid].slot] == Dropped)
  {
    if pkid in s.ackMap {
      assert Waits(s.slots, s.ackMap[pkid]);
    }
  }

  /** The task that is still waiting and sees no outgoing publish stays queued:
      an outgoing publish with no registration queued changes nothing. */
  lemma OutgoingPublishWithoutRegistration(s: LoopState, pkid: u16)
    requires s.phase.Running? && |s.regs| == 0
    ensures Step(s, Polled(Ok(Outgoing(OutPublish(pkid))))) == s
  {
  }

  function OutgoingPublishes(pkids: seq<u16>): (evs: seq<LoopEvent>)
    ensures |evs| == |pkids|
    ensures forall i :: 0 <= i < |pkids| ==> evs[i] == Polled(Ok(Outgoing(OutPublish(pkids[i]))))
  {
    seq(|pkids|, i requires 0 <= i < |pkids| => Polled(Ok(Outgoing(OutPublish(pkids[i])))))
  }

  /** Registrations are filed in the order they were queued: `n` outgoing publishes
      under distinct packet ids file the first `n` registrations, in order. */
  lemma {:induction false} FilingIsFifo(s: LoopState, pkids: seq<u16>)
    requires WF(s) && s.phase.Running?
    requires |pkids| <= |s.regs|
    requires forall i, j :: 0 <= i < j < |pkids| ==> pkids[i] != pkids[j]
    ensures var t := Steps(s, OutgoingPublishes(pkids));
            && t.regs == s.regs[|pkids|..]
            && (forall i :: 0 <= i < |pkids| ==> pkids[i] in t.ackMap && t.ackMap[pkids[i]] == s.regs[i])
    decreases |pkids|
  {
    var evs := OutgoingPublishes(pkids);
    if |pkids| > 0 {
      var s1 := Step(s, evs[0]);
      OutgoingPublishFilesOldest(s, pkids[0]);
      StepKeepsWF(s, evs[0]);
      assert OutgoingPublishes(pkids[1..]) == evs[1..];
      FilingIsFifo(s1, pkids[1..]);
      var t := Steps(s1, evs[1..]);
      assert s1.regs[|pkids| - 1..] == s.regs[|pkids|..];
      forall i | 0 <= i < |pkids|
        ensures pkids[i] in t.ackMap && t.ackMap[pkids[i]] == s.regs[i]
      {
        if i == 0 {
          StepsKeepEntry(s1, pkids[1..], pkids[0]);
        } else {
          assert pkids[1..][i - 1] == pkids[i];
        }
      }
    }
  }

  /** Outgoing publishes under other packet ids leave an entry alone. */
  lemma {:induction false} StepsKeepEntry(s: LoopState, pkids: seq<u16>, p: u16)
    requires s.phase.Running? && p in s.ackMap && p !in pkids
    ensures var t := Steps(s, OutgoingPublishes(pkids));
            p in t.ackMap && t.ackMap[p] == s.ackMap[p]
    decreases |pkids|
  {
    var evs := OutgoingPublishes(pkids);
    if |pkids| > 0 {
      assert OutgoingPublishes(pkids[1..]) == evs[1..];
      StepsKeepEntry(Step(s, evs[0]), pkids[1..], p);
    }
  }

  /** A lost connection empties the table and closes the channel of every task
      that was in it, reports the classified reason as a new value of the loss
      watch, and leaves queued registrations and every other task alone. */
  lemma ConnectionErrorClearsTable(s: LoopState, e: PollError)
    requires WF(s) && s.phase.Running?
    ensures var t := Step(s, Polled(Err(e)));
            && t.ackMap == map[]
            && t.regs == s.regs
            && (forall p :: p in s.ackMap ==> t.slots[s.ackMap[p].slot] == Dropped)
            && (forall i :: 0 <= i < |s.slots| && i !in MapSlots(s.ackMap) ==> t.slots[i] == s.slots[i])
            && t.lost.value == Classify(e) && t.lost.version == s.lost.version + 1
            && t.phase == Running
  {
    forall p | p in s.ackMap ensures s.ackMap[p].slot in MapSlots(s.ackMap) && Waits(s.slots, s.ackMap[p]) {
    }
  }

  /** While blocked on the run switch nothing but the switch is observed: the
      table, the queue, the tasks and the watches keep their state. */
  lemma PausedObservesOnlyRunSwitch(s: LoopState, ev: LoopEvent)
    requires s.phase.Paused? && !ev.RunChanged?
    ensures var t := Step(s, ev);
            t.phase == Paused && t.ackMap == s.ackMap && t.regs == s.regs && t.slots == s.slots
            && t.lost == s.lost && t.connAcks == s.connAcks && t.requests == s.requests
            && t.password == s.password
  {
  }

  /** Shutdown ends the main loop: the task stops and drops every sender it
      holds. Before the first password it skips ahead to the main loop, and while
      the loop is blocked on the run switch it goes unnoticed. */
  lemma ShutdownEffect(s: LoopState)
    ensures var t := Step(s, ShutdownFired);
            t.cancelled
            && (s.phase.Running? ==> t.phase == Stopped && t.ackMap == map[] && t.regs == [])
            && (s.phase.AwaitingPassword? ==> t.phase == Running && t.ackMap == s.ackMap)
            && (s.phase.Paused? ==> t.phase == Paused && t.ackMap == s.ackMap && t.regs == s.regs)
  {
  }

  /** A change of the run switch whose sender is gone ends the loop, unless the
      switch is on and the loop is polling: then it keeps polling. */
  lemma DeadRunSwitchEffect(s: LoopState)
    requires (s.phase.Running? || s.phase.Paused?) && !s.run.senderAlive
    ensures var t := Step(s, RunChanged);
            (!s.run.value ==> t.phase == Stopped && t.ackMap == map[] && t.regs == [])
            && (s.phase.Running? && s.run.value ==> t.phase == Running)
  {
  }

  /** Once the task has ended nothing moves it again: whatever completes next,
      its phase, table, queue, watches and requests stay as they are. */
  lemma {:induction false} EndedTaskStaysEnded(s: LoopState, evs: seq<LoopEvent>)
    requires !Live(s) && s.ackMap == map[] && s.regs == []
    ensures var t := Steps(s, evs);
            t.phase == s.phase && t.ackMap == map[] && t.regs == []
            && t.lost == s.lost && t.connAcks == s.connAcks && t.requests == s.requests
    decreases |evs|
  {
    if |evs| > 0 {
      var s1 := Step(s, evs[0]);
      assert s1.phase == s.phase && s1.ackMap == map[] && s1.regs == [];
      EndedTaskStaysEnded(s1, evs[1..]);
    }
  }

  /** A password rotation inside the loop installs the password and queues exactly
      one disconnect, so that rumqttc reconnects with the new credentials; with
      the request channel full the task panics instead. */
  lemma PasswordRotationForcesReconnect(s: LoopState, p: string)
    requires s.phase.Running?
    ensures var t := Step(s, PasswordUpdated(Ok(p)));
            t.password == Some(p) && t.username == s.username
            && (|s.requests| < REQUEST_CAPACITY ==>
                  t.requests == s.requests + [DisconnectRequest] && t.ackMap == s.ackMap && t.phase == Running)
            && (|s.requests| >= REQUEST_CAPACITY ==> t.phase.Panicked? && t.ackMap == map[])
  {
  }

  /** The loss reason distinguishes protocol-state errors and time-outs from
      everything else, and keeps the text of everything else. */
  lemma ClassifyCases(e: PollError)
    ensures Classify(e) == ManualDisconnect <==> e.MqttState?
    ensures Classify(e) == Timeout <==> e.NetworkTimeout?
    ensures e.OtherError? ==> Classify(e) == Uncategorized(e.text)
  {
  }

  /** When the task ends no task is left waiting: every oneshot is completed or closed. */
  lemma EndedTaskLeavesNoWaiter(s: LoopState, ev: LoopEvent)
    requires WF(s) && Live(s)
    ensures var t := Step(s, ev);
            !Live(t) ==> forall i :: 0 <= i < |t.slots| ==> !t.slots[i].Waiting?
  {
    StepKeepsWF(s, ev);
    var t := Step(s, ev);
    if !Live(t) {
      forall i | 0 <= i < |t.slots| ensures !t.slots[i].Waiting? {
        assert t.ackMap == map[] && t.regs == [];
        assert Held(t) == {};
      }
    }
  }

  /** The invariant only speaks of the table, the queue and the slots. */
  lemma SameBookkeeping(s: LoopState, t: LoopState)
    requires WF(s) && t.ackMap == s.ackMap && t.regs == s.regs && t.slots == s.slots
    ensures WF(t)
  {
  }

  lemma IncomingKeepsWF(s: LoopState, p: Packet)
    requires WF(s)
    ensures WF(OnIncoming(s, p))
  {
    if p.PubAck? && p.pkid in s.ackMap {
      PubAckKeepsWF(s, p.pkid);
    } else {
      SameBookkeeping(s, OnIncoming(s, p));
    }
  }

  lemma OutgoingKeepsWF(s: LoopState, o: Outgoing)
    requires WF(s)
    ensures WF(OnOutgoing(s, o))
  {
    if o.OutPublish? && |s.regs| > 0 {
      OutgoingPublishKeepsWF(s, o.pkid);
    } else {
      SameBookkeeping(s, OnOutgoing(s, o));
    }
  }

  /** Only polling while running touches the table, the queue or the slots. */
  lemma ArmOtherBookkeeping(s: LoopState, ev: LoopEvent)
    requires !(ev.Polled? && s.phase.Running?)
    ensures Arm(s, ev).ackMap == s.ackMap && Arm(s, ev).regs == s.regs && Arm(s, ev).slots == s.slots
  {
  }

  lemma ArmKeepsWF(s: LoopState, ev: LoopEvent)
    requires WF(s)
    ensures WF(Arm(s, ev))
  {
    if ev.Polled? && s.phase.Running? {
      assert Arm(s, ev) == OnPoll(s, ev.result);
      match ev.result
      case Ok(Incoming(p)) => IncomingKeepsWF(s, p);
      case Ok(Outgoing(o)) => OutgoingKeepsWF(s, o);
      case Err(e) => ConnectionErrorKeepsWF(s, e);
    } else {
      ArmOtherBookkeeping(s, ev);
      SameBookkeeping(s, Arm(s, ev));
    }
  }

  lemma PubAckKeepsWF(s: LoopState, pkid: u16)
    requires WF(s) && pkid in s.ackMap
    ensures WF(OnPubAck(s, pkid))
  {
    var t := OnPubAck(s, pkid);
    var reg := s.ackMap[pkid];
    assert Waits(s.slots, reg);
    assert t.slots == s.slots[reg.slot := Fulfilled(reg.msgId)];
    forall p | p in t.ackMap ensures Waits(t.slots, t.ackMap[p]) {
      assert Waits(s.slots, s.ackMap[p]);
    }
    forall i | 0 <= i < |t.regs| ensures Waits(t.slots, t.regs[i]) {
      assert Waits(s.slots, s.regs[i]);
    }
    assert HoldsWaiting(t.ackMap, t.regs, t.slots);
    assert Exclusive(t.ackMap, t.regs);
    forall i | 0 <= i < |t.slots| && t.slots[i].Waiting? ensures i in Held(t) {
      assert i != reg.slot;
      assert i in Held(s);
      if i in MapSlots(s.ackMap) {
        var q :| q in s.ackMap && s.ackMap[q].slot == i;
        assert q in t.ackMap;
        assert i in MapSlots(t.ackMap);
      } else {
        assert i in RegSlots(t.regs);
      }
    }
  }

  lemma OutgoingPublishKeepsWF(s: LoopState, pkid: u16)
    requires WF(s) && |s.regs| > 0
    ensures WF(OnOutgoingPublish(s, pkid))
  {
    OutgoingPublishHolds(s, pkid);
    OutgoingPublishExclusive(s, pkid);
    OutgoingPublishNoOrphan(s, pkid);
  }

  lemma OutgoingPublishHolds(s: LoopState, pkid: u16)
    requires WF(s) && |s.regs| > 0
    ensures var t := OnOutgoingPublish(s, pkid); HoldsWaiting(t.ackMap, t.regs, t.slots)
  {
    var t := OnOutgoingPublish(s, pkid);
    var r0 := s.regs[0];
    assert Waits(s.slots, r0);
    assert |t.slots| == |s.slots|;
    assert forall i :: 0 <= i < |s.slots| && s.slots[i].Waiting? && t.slots[i] != s.slots[i] ==>
      pkid in s.ackMap && i == s.ackMap[pkid].slot;
    forall p | p in t.ackMap ensures Waits(t.slots, t.ackMap[p]) {
      if p != pkid {
        assert Waits(s.slots, s.ackMap[p]);
      } else if pkid in s.ackMap {
        assert r0.slot != s.ackMap[pkid].slot;
      }
    }
    forall i | 0 <= i < |t.regs| ensures Waits(t.slots, t.regs[i]) {
      assert t.regs[i] == s.regs[i + 1];
      assert Waits(s.slots, s.regs[i + 1]);
      if pkid in s.ackMap {
        assert s.regs[i + 1].slot != s.ackMap[pkid].slot;
      }
    }
  }

  lemma OutgoingPublishExclusive(s: LoopState, pkid: u16)
    requires WF(s) && |s.regs| > 0
    ensures var t := OnOutgoingPublish(s, pkid); Exclusive(t.ackMap, t.regs)
  {
    var t := OnOutgoingPublish(s, pkid);
    forall p, q | p in t.ackMap && q in t.ackMap && p != q ensures t.ackMap[p].slot != t.ackMap[q].slot {
      if p == pkid {
        assert s.regs[0].slot != s.ackMap[q].slot;
      } else if q == pkid {
        assert s.regs[0].slot != s.ackMap[p].slot;
      }
    }
    forall i, j | 0 <= i < j < |t.regs| ensures t.regs[i].slot != t.regs[j].slot {
      assert t.regs[i] == s.regs[i + 1] && t.regs[j] == s.regs[j + 1];
    }
    forall p, i | p in t.ackMap && 0 <= i < |t.regs| ensures t.ackMap[p].slot != t.regs[i].slot {
      assert t.regs[i] == s.regs[i + 1];
    }
  }

  lemma OutgoingPublishNoOrphan(s: LoopState, pkid: u16)
    requires WF(s) && |s.regs| > 0
    ensures var t := OnOutgoingPublish(s, pkid); NoOrphan(t.ackMap, t.regs, t.slots)
  {
    var t := OnOutgoingPublish(s, pkid);
    assert |t.slots| == |s.slots|;
    forall i | 0 <= i < |t.slots| && t.slots[i].Waiting? ensures i in Held(t) {
      assert s.slots[i].Waiting?;
      assert i in Held(s);
      if i in MapSlots(s.ackMap) {
        var q :| q in s.ackMap && s.ackMap[q].slot == i;
        assert q != pkid;
        assert t.ackMap[q] == s.ackMap[q];
        assert i in MapSlots(t.ackMap);
      } else {
        var k :| 0 <= k < |s.regs| && s.regs[k].slot == i;
        if k == 0 {
          assert t.ackMap[pkid].slot == i;
          assert i in MapSlots(t.ackMap);
        } else {
          assert t.regs[k - 1].slot == i;
          assert i in RegSlots(t.regs);
        }
      }
    }
  }

  lemma ConnectionErrorKeepsWF(s: LoopState, e: PollError)
    requires WF(s)
    ensures WF(OnConnectionError(s, e))
  {
    var t := OnConnectionError(s, e);
    forall i | 0 <= i < |t.regs| ensures Waits(t.slots, t.regs[i]) {
      assert Waits(s.slots, s.regs[i]);
      var sl := s.regs[i].slot;
      assert forall q :: q in s.ackMap ==> s.ackMap[q].slot != sl;
      assert sl !in MapSlots(s.ackMap);
    }
    assert HoldsWaiting(t.ackMap, t.regs, t.slots);
    forall i | 0 <= i < |t.slots| && t.slots[i].Waiting? ensures i in Held(t) {
      assert i in Held(s);
    }
  }

  lemma ReleaseKeepsWF(s: LoopState)
    requires WF(s)
    ensures WF(Release(s))
  {
  }

  /** Every step keeps the invariant. */
  lemma StepKeepsWF(s: LoopState, ev: LoopEvent)
    requires WF(s)
    ensures WF(Step(s, ev))
  {
    ArmKeepsWF(s, ev);
    ReleaseKeepsWF(Arm(s, ev));
  }

  lemma {:induction false} StepsKeepWF(s: LoopState, evs: seq<LoopEvent>)
    requires WF(s)
    ensures WF(Steps(s, evs))
    decreases |evs|
  {
    if |evs| > 0 {
      StepKeepsWF(s, evs[0]);
      StepsKeepWF(Step(s, evs[0]), evs[1..]);
    }
  }

  // ---------------------------------------------------------------------------
  // The task as an object whose fields its branches update in place

  class EventLoop {
    var phase: Phase
    var cancelled: bool
    var ackMap: map<u16, Registration>
    var regs: seq<Registration>
    var slots: seq<Slot>
    var run: RunCell
    var username: string
    var password: Option<string>
    var lost: Watch<ConnectionLost>
    var connAcks: seq<ConnectReturnCode>
    var requests: seq<Request>

    function State(): LoopState
      reads this
    {
      LoopState(phase, cancelled, ackMap, regs, slots, run, username, password, lost, connAcks, requests)
    }

    constructor(user: string)
      ensures State() == Init(user)
    {
      phase, cancelled, ackMap, regs, slots := AwaitingPassword, false, map[], [], [];
      run := RunCell(false, true, true);
      username, password := user, None;
      lost := Watch(Uncategorized("init"), 0);
      connAcks, requests := [], [];
    }

    method HandlePubAck(pkid: u16)
      modifies this
      ensures State() == OnPubAck(old(State()), pkid)
    {
      if pkid in ackMap {
        var reg := ackMap[pkid];
        ackMap := ackMap - {pkid};
        if reg.slot < |slots| && slots[reg.slot].Waiting? {
          slots := slots[reg.slot := Fulfilled(reg.msgId)];
        }
      }
    }

    method HandleOutgoingPublish(pkid: u16)
      modifies this
      ensures State() == OnOutgoingPublish(old(State()), pkid)
    {
      if |regs| > 0 {
        var reg := regs[0];
        regs := regs[1..];
        if pkid in ackMap {
          var displaced := ackMap[pkid].slot;
          if displaced < |slots| && slots[displaced].Waiting? {
            slots := slots[displaced := Dropped];
          }
        }
        ackMap := ackMap[pkid := reg];
      }
    }

    method HandleConnectionError(e: PollError)
      modifies this
      ensures State() == OnConnectionError(old(State()), e)
    {
      slots := CloseAll(slots, MapSlots(ackMap));
      ackMap := map[];
      lost := SendReplace(lost, Classify(e));
    }

    method HandlePoll(r: Result<Event, PollError>)
      modifies this
      ensures State() == OnPoll(old(State()), r)
    {
      match r
      case Ok(Incoming(p)) =>
        match p {
          case PubAck(pkid) => HandlePubAck(pkid);
          case ConnAck(_, code) => connAcks := connAcks + [code];
          case SubAck(_) =>
          case PingResp =>
          case Disconnect =>
          case _ => phase := Panicked(TODO_PANIC);
        }
      case Ok(Outgoing(o)) =>
        match o {
          case OutPublish(pkid) => HandleOutgoingPublish(pkid);
          case OutSubscribe(_) =>
          case OutPingReq =>
          case OutPingResp =>
          case OutDisconnect =>
          case _ => phase := Panicked(TODO_PANIC);
        }
      case Err(e) => HandleConnectionError(e);
    }

    method HandlePassword(r: Result<string, string>)
      modifies this
      ensures State() == OnPassword(old(State()), r)
    {
      if phase.AwaitingPassword? {
        match r {
          case Ok(p) => password, phase := Some(p), Running;
          case Err(_) => phase := Panicked(UNWRAP_PANIC);
        }
      } else if phase.Running? {
        match r {
          case Ok(p) =>
            password := Some(p);
            if |requests| < REQUEST_CAPACITY {
              requests := requests + [DisconnectRequest];
            } else {
              phase := Panicked(UNWRAP_PANIC);
            }
          case Err(_) =>
        }
      }
    }

    method HandleRunChanged()
      modifies this
      ensures State() == OnRunChanged(old(State()))
    {
      if phase.Running? || phase.Paused? {
        if run.unseen {
          var on := run.value;
          run := run.(unseen := false);
          if on {
            phase := Running;
          } else if run.senderAlive {
            phase := Paused;
          } else {
            phase := Stopped;
          }
        } else if !run.senderAlive && !(phase.Running? && run.value) {
          phase := Stopped;
        }
      }
    }

    method HandleShutdown()
      modifies this
      ensures State() == OnShutdown(old(State()))
    {
      cancelled := true;
      if phase.AwaitingPassword? {
        phase := Running;
      } else if phase.Running? {
        phase := Stopped;
      }
    }

    /** One completed branch of the select!, and the drop of everything the task
        holds when the branch ends it. */
    method HandleEvent(ev: LoopEvent)
      modifies this
      ensures State() == Step(old(State()), ev)
    {
      match ev {
        case ShutdownFired => HandleShutdown();
        case RunChanged => HandleRunChanged();
        case PasswordUpdated(r) => HandlePassword(r);
        case Polled(r) => if phase.Running? { HandlePoll(r); }
      }
      if !Live(State()) {
        slots := CloseAll(slots, Held(State()));
        ackMap, regs := map[], [];
      }
    }

    /** The task's loop over the branches that complete, one after another. */
    method Run(evs: seq<LoopEvent>)
      modifies this
      requires WF(State())
      ensures State() == Steps(old(State()), evs)
      ensures WF(State())
    {
      ghost var s0 := State();
      var i := 0;
      while i < |evs|
        invariant 0 <= i <= |evs|
        invariant Steps(s0, evs) == Steps(State(), evs[i..])
        invariant WF(State())
      {
        ghost var before := State();
        HandleEvent(evs[i]);
        StepKeepsWF(before, evs[i]);
        assert evs[i..][1..] == evs[i + 1..];
        i := i + 1;
      }
    }

    /** The adapter's side of the registration channel. */
    method RegisterAck(msgId: u32) returns (slot: nat)
      modifies this
      ensures State() == Register(old(State()), msgId)
      ensures slot == old(|slots|)
    {
      slot := |slots|;
      regs := regs + [Registration(msgId, slot)];
      slots := slots + [Waiting];
    }

    method SetRunSwitch(v: bool)
      modifies this
      ensures State() == SetRun(old(State()), v)
    {
      run := RunCell(v, true, run.senderAlive);
    }

    method DropRunSwitch()
      modifies this
      ensures State() == DropRunSender(old(State()))
    {
      run := run.(senderAlive := false);
    }

    method QueueRequest(req: Request)
      modifies this
      ensures State() == Enqueue(old(State()), req)
    {
      requests := requests + [req];
    }

    method TakeRequest()
      modifies this
      requires |requests| > 0
      ensures State() == Dequeue(old(State()))
    {
      requests := requests[1..];
    }
  }
}
