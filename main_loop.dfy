/** The bridge's orchestration loop. It forwards messages from the data sources
    to the cloud adapter while connected, sorts the acknowledgement results into
    metrics, and keeps exactly one connection attempt or connection watcher alive:
    a failed attempt is retried at once, and a lost connection (reported by a
    watcher as a `false` status) starts a new attempt.

    Each pass of the loop's `select!` is one `Event`; an event whose branch is not
    ready in the current state leaves the state as it is. The two "dummy" tasks
    that keep the task sets from running empty finish only once the shutdown
    token is cancelled. */
module MainLoop {
  import opened Wrappers
  import opened Ints
  import opened AdapterCore
  import DataSourceCore

  /** Capacity of the connection-status channel. */
  const STATUS_CAPACITY: nat := 10


  /** The exit reasons the loop logs. */
  const EXIT_TX_DROPPED: string := "tx dropped"
  const EXIT_ACKS_EMPTY: string := "ack_tasks empty"
  const EXIT_CONNECTS_EMPTY: string := "connect tasks are empty"
  const EXIT_SHUTDOWN: string := "shutdown token was cancelled"

  /** What the loop reports to the data server, one per call of the handle. */
  datatype Report = Published(id: u32) | Acked(id: u32, success: bool) | Status(connected: bool)

  /** How an ack task ended: with the token's result, or with a join error. */
  datatype AckOutcome = AckResult(result: Result<u32, DeliveryError>) | AckJoinError(text: string)

  /** How a real connect task ended. */
  datatype ConnectOutcome = Connected | ConnectFailed(error: ConnectionError) | ConnectJoinError(text: string)

  datatype Event =
    | MsgIn(msg: DataSourceCore.MsgBusData)  // `rx_msg.recv()` gave a message
    | BusClosed                              // `rx_msg.recv()` gave `None`
    | AckDone(i: nat, outcome: AckOutcome)   // the i-th pending ack task finished
    | DummyAckDone                           // the ack set's dummy finished
    | AckSetEmpty                            // `ack_tasks.join_next()` gave `None`
    | StatusIn                               // the oldest queued status was received
    | ConnectDone(result: ConnectOutcome)   // a real connect task finished
    | DummyConnectDone                       // the connect set's dummy finished
    | ConnectSetEmpty                        // `connect_tasks.join_next()` gave `None`
    | LossSeen                               // a watcher woke: loss reported or sender dropped
    | Cancel                                 // the shutdown token was cancelled elsewhere
    | ShutdownSeen                           // the loop's shutdown branch ran

  datatype LoopState = LoopState(
    connected: bool,
    /** Real connect tasks not yet joined. */
    realConnects: nat,
    dummyConnect: bool,
    /** Spawned watchers that have not yet sent their `false`. */
    watchers: nat,
    statusQueue: seq<bool>,
    /** The message ids of the ack tasks not yet joined, oldest first. */
    ackTasks: seq<u32>,
    dummyAck: bool,
    /** Messages handed to `adapter.publish`, in order. */
    published: seq<DataSourceCore.MsgBusData>,
    reports: seq<Report>,
    cancelled: bool,
    exit: Option<string>,
    panicked: Option<string>)

  /** The state when the loop is entered: one connect already spawned (the
      adapter's `connect` does not fail), not connected. */
  function Start(): (s: LoopState)
    ensures !s.connected && s.realConnects == 1 && s.dummyConnect && s.dummyAck
    ensures s.statusQueue == [] && s.ackTasks == [] && s.exit.None? && s.panicked.None?
  {
    LoopState(false, 1, true, 0, [], [], true, [], [], false, None, None)
  }

  predicate Running(s: LoopState) {
    s.exit.None? && s.panicked.None?
  }

  /** The number of tasks in the connect set, as `connect_tasks.len()` counts them. */
  function ConnectSetLen(s: LoopState): nat {
    (if s.dummyConnect then 1 else 0) + s.realConnects
  }

  function RemoveAt(xs: seq<u32>, i: nat): (r: seq<u32>)
    requires i < |xs|
    ensures |r| == |xs| - 1
  {
    xs[..i] + xs[i + 1..]
  }

  /** The report an ack result gives: success with the acknowledged id, failure
      with the id the error names, nothing for a join error. */
  function AckReports(o: AckOutcome): (r: seq<Report>)
    ensures |r| <= 1
  {
    match o
    case AckResult(Ok(id)) => [Acked(id, true)]
    case AckResult(Err(e)) => [Acked(e.msgId, false)]
    case AckJoinError(_) => []
  }

  /** A successful connect: connected, a `true` status queued (the `unwrap` panics
      on a full channel) and one watcher armed. */
  function OnConnected(s: LoopState): LoopState {
    if |s.statusQueue| < STATUS_CAPACITY then
      s.(connected := true, statusQueue := s.statusQueue + [true], watchers := s.watchers + 1)
    else
      s.(connected := true, panicked := Some(UNWRAP_PANIC))
  }

  /** One pass of the loop. */
  function Step(s: LoopState, ev: Event): LoopState {
    if ev.Cancel? then s.(cancelled := true)
    else if ev.LossSeen? then
      // A watcher runs on its own: its `try_send(false)` may find the channel full
      // (the `false` is lost) or closed once the loop has ended.
      if s.watchers == 0 then s
      else if Running(s) && |s.statusQueue| < STATUS_CAPACITY then
        s.(watchers := s.watchers - 1, statusQueue := s.statusQueue + [false])
      else s.(watchers := s.watchers - 1)
    else if !Running(s) then s
    else match ev
      case MsgIn(msg) =>
        if s.connected then
          s.(reports := s.reports + [Published(msg.id)], published := s.published + [msg],
             ackTasks := s.ackTasks + [msg.id])
        else s
      case BusClosed => s.(exit := Some(EXIT_TX_DROPPED))
      case AckDone(i, o) =>
        if i < |s.ackTasks| then s.(ackTasks := RemoveAt(s.ackTasks, i), reports := s.reports + AckReports(o))
        else s
      case DummyAckDone =>
        if s.cancelled && s.dummyAck then s.(dummyAck := false, reports := s.reports + [Acked(0, true)])
        else s
      case AckSetEmpty =>
        if !s.dummyAck && |s.ackTasks| == 0 then s.(exit := Some(EXIT_ACKS_EMPTY)) else s
      case StatusIn =>
        if |s.statusQueue| == 0 then s
        else
          var b := s.statusQueue[0];
          var s1 := s.(statusQueue := s.statusQueue[1..], reports := s.reports + [Status(b)]);
          if b then s1
          else if ConnectSetLen(s) == 1 then s1.(connected := false, realConnects := s.realConnects + 1)
          else s1.(connected := false)
      case ConnectDone(o) =>
        if s.realConnects == 0 then s
        else if o.Connected? then OnConnected(s.(realConnects := s.realConnects - 1))
        else s  // joined and at once replaced by a fresh attempt
      case DummyConnectDone =>
        // its `Err` result counts as a failed attempt: a real one is started
        if s.cancelled && s.dummyConnect then s.(dummyConnect := false, realConnects := s.realConnects + 1)
        else s
      case ConnectSetEmpty =>
        if ConnectSetLen(s) == 0 then s.(exit := Some(EXIT_CONNECTS_EMPTY)) else s
      case ShutdownSeen =>
        if s.cancelled then s.(exit := Some(EXIT_SHUTDOWN)) else s
  }

  function Steps(s: LoopState, evs: seq<Event>): LoopState
    decreases |evs|
  {
    if |evs| == 0 then s else Steps(Step(s, evs[0]), evs[1..])
  }

  // ---------------------------------------------------------------------------
  // The connection epoch

  /** 1 when the status queue ends with a `false` no one has read yet. */
  function PendingFalse(q: seq<bool>): nat {
    if |q| > 0 && !q[|q| - 1] then 1 else 0
  }

  /** Before shutdown: exactly one of "an attempt is running", "a watcher is armed",
      "a `false` is queued" holds; the queue holds at most the epoch's `true` and
      `false`; and the loop is connected exactly when no attempt is running. */
  predicate Epoch(s: LoopState) {
    Running(s) && s.dummyConnect && s.dummyAck
    && s.realConnects + s.watchers + PendingFalse(s.statusQueue) == 1
    && (s.realConnects == 1 ==> s.statusQueue == [])
    && (s.watchers == 1 ==> s.statusQueue == [] || s.statusQueue == [true])
    && (PendingFalse(s.statusQueue) == 1 ==> s.statusQueue == [false] || s.statusQueue == [true, false])
    && (s.connected <==> s.realConnects == 0)
  }

  /** The invariant the loop keeps: the epoch holds until shutdown starts or the
      loop ends. */
  predicate Inv(s: LoopState) {
    s.cancelled || s.exit.Some? || Epoch(s)
  }

  lemma StartInv()
    ensures Epoch(Start()) && Inv(Start())
  {
  }

  lemma StepKeepsInv(s: LoopState, ev: Event)
    requires Inv(s)
    ensures Inv(Step(s, ev))
  {
    if !s.cancelled && s.exit.None? && !ev.Cancel? {
      var t := Step(s, ev);
      match ev
      case StatusIn =>
        if |s.statusQueue| > 0 {
          assert s.statusQueue[1..] == [] || s.statusQueue[1..] == [false];
        }
      case LossSeen =>
        if s.watchers > 0 {
          assert t.statusQueue == s.statusQueue + [false];
        }
      case _ =>
    }
  }

  lemma {:induction false} StepsKeepInv(s: LoopState, evs: seq<Event>)
    requires Inv(s)
    ensures Inv(Steps(s, evs))
    decreases |evs|
  {
    if |evs| > 0 {
      StepKeepsInv(s, evs[0]);
      StepsKeepInv(Step(s, evs[0]), evs[1..]);
    }
  }

  /** Before shutdown the loop never panics: the status queue never holds more than
      two values, so queueing `true` always finds room; and while one attempt runs
      or a `false` is pending no second attempt is ever started. */
  lemma {:induction false} NoPanicBeforeShutdown(evs: seq<Event>)
    ensures var s := Steps(Start(), evs);
            !s.cancelled && s.exit.None? ==> s.panicked.None? && |s.statusQueue| <= 2 && s.realConnects <= 1
  {
    StartInv();
    StepsKeepInv(Start(), evs);
  }

  /** A `false` status received before shutdown always finds only the dummy in the
      connect set, so it always starts a new attempt. */
  lemma LossAlwaysReconnects(s: LoopState)
    requires Epoch(s) && !s.cancelled && |s.statusQueue| > 0 && !s.statusQueue[0]
    ensures ConnectSetLen(s) == 1
    ensures Step(s, StatusIn).realConnects == 1 && !Step(s, StatusIn).connected
  {
  }

  /** Before shutdown neither task set can run empty, so the loop ends only when the
      data channel closes. */
  lemma OnlyBusEndsEpoch(s: LoopState, ev: Event)
    requires Epoch(s) && !s.cancelled
    ensures Step(s, ev).exit.Some? ==> ev == BusClosed
  {
  }

  // ---------------------------------------------------------------------------
  // Per-branch promises

  /** A message is published, with a report and an ack task for its id, exactly
      when it arrives while connected; otherwise nothing happens to it. */
  lemma MsgInEffect(s: LoopState, msg: DataSourceCore.MsgBusData)
    requires Running(s)
    ensures var t := Step(s, MsgIn(msg));
            (s.connected ==>
               t.published == s.published + [msg] && t.reports == s.reports + [Published(msg.id)]
               && t.ackTasks == s.ackTasks + [msg.id])
            && (!s.connected ==> t == s)
  {
  }

  /** Messages published over any run were published while connected: a run never
      grows `published` in a step that starts disconnected. */
  lemma PublishOnlyWhileConnected(s: LoopState, ev: Event)
    requires |Step(s, ev).published| > |s.published|
    ensures s.connected && ev.MsgIn? && Running(s)
  {
  }

  /** A finished ack task is removed and reported once: success with the id the
      token gave, failure with the id the error carries, nothing on a join error. */
  lemma AckDoneEffect(s: LoopState, i: nat, o: AckOutcome)
    requires Running(s) && i < |s.ackTasks|
    ensures var t := Step(s, AckDone(i, o));
            t.ackTasks == s.ackTasks[..i] + s.ackTasks[i + 1..]
            && (o.AckResult? && o.result.Ok? ==> t.reports == s.reports + [Acked(o.result.value, true)])
            && (o.AckResult? && o.result.Err? ==> t.reports == s.reports + [Acked(o.result.error.msgId, false)])
            && (o.AckJoinError? ==> t.reports == s.reports)
  {
  }

  /** `connected` changes only on a successful connect (to true) and on a received
      `false` status (to false). */
  lemma ConnectedChangesOnlyThere(s: LoopState, ev: Event)
    requires Step(s, ev).connected != s.connected
    ensures (ev == ConnectDone(Connected) && Step(s, ev).connected)
         || (ev == StatusIn && !s.statusQueue[0] && !Step(s, ev).connected)
  {
  }

  /** Every received status is reported, in the order received. */
  lemma StatusReported(s: LoopState)
    requires Running(s) && |s.statusQueue| > 0
    ensures Step(s, StatusIn).reports == s.reports + [Status(s.statusQueue[0])]
    ensures Step(s, StatusIn).statusQueue == s.statusQueue[1..]
  {
  }

  /** A failed attempt, by error or by join failure, is replaced by a fresh one. */
  lemma FailedConnectRetried(s: LoopState, o: ConnectOutcome)
    requires Running(s) && s.realConnects > 0 && !o.Connected?
    ensures Step(s, ConnectDone(o)) == s
  {
  }

  /** After shutdown starts, the dummy connect's failure starts one more attempt. */
  lemma DummyConnectRetries(s: LoopState)
    requires Running(s) && s.cancelled && s.dummyConnect
    ensures Step(s, DummyConnectDone).realConnects == s.realConnects + 1
  {
  }

  // ---------------------------------------------------------------------------
  // The loop as it runs

  class Orchestrator {
    var connected: bool
    var realConnects: nat
    var dummyConnect: bool
    var watchers: nat
    var statusQueue: seq<bool>
    var ackTasks: seq<u32>
    var dummyAck: bool
    var published: seq<DataSourceCore.MsgBusData>
    var reports: seq<Report>
    var cancelled: bool
    var exit: Option<string>
    var panicked: Option<string>

    function State(): LoopState
      reads this
    {
      LoopState(connected, realConnects, dummyConnect, watchers, statusQueue, ackTasks, dummyAck,
                published, reports, cancelled, exit, panicked)
    }

    /** The task sets are made with their dummies and the first connect is spawned. */
    constructor()
      ensures State() == Start()
    {
      connected, realConnects, dummyConnect, watchers := false, 1, true, 0;
      statusQueue, ackTasks, dummyAck := [], [], true;
      published, reports, cancelled, exit, panicked := [], [], false, None, None;
    }

    method OnMessage(msg: DataSourceCore.MsgBusData)
      requires Running(State())
      modifies this
      ensures State() == Step(old(State()), MsgIn(msg))
    {
      if connected {
        reports := reports + [Published(msg.id)];
        published := published + [msg];
        ackTasks := ackTasks + [msg.id];
      }
    }

    method OnAck(i: nat, o: AckOutcome)
      requires Running(State())
      modifies this
      ensures State() == Step(old(State()), AckDone(i, o))
    {
      if i < |ackTasks| {
        ackTasks := RemoveAt(ackTasks, i);
        match o {
          case AckResult(Ok(id)) => reports := reports + [Acked(id, true)];
          case AckResult(Err(e)) => reports := reports + [Acked(e.msgId, false)];
          case AckJoinError(_) =>
        }
      }
    }

    method OnStatus()
      requires Running(State())
      modifies this
      ensures State() == Step(old(State()), StatusIn)
    {
      if |statusQueue| > 0 {
        var b := statusQueue[0];
        statusQueue := statusQueue[1..];
        reports := reports + [Status(b)];
        if !b {
          var len := (if dummyConnect then 1 else 0) + realConnects;
          connected := false;
          if len == 1 {
            realConnects := realConnects + 1;
          }
        }
      }
    }

    method OnConnect(o: ConnectOutcome)
      requires Running(State())
      modifies this
      ensures State() == Step(old(State()), ConnectDone(o))
    {
      if realConnects > 0 && o.Connected? {
        realConnects := realConnects - 1;
        connected := true;
        if |statusQueue| < STATUS_CAPACITY {
          statusQueue := statusQueue + [true];
          watchers := watchers + 1;
        } else {
          panicked := Some(UNWRAP_PANIC);
        }
      }
    }

    method OnLoss()
      modifies this
      ensures State() == Step(old(State()), LossSeen)
    {
      if watchers > 0 {
        if exit.None? && panicked.None? && |statusQueue| < STATUS_CAPACITY {
          statusQueue := statusQueue + [false];
        }
        watchers := watchers - 1;
      }
    }

    /** One pass of the loop, dispatched to the branch that ran. */
    method HandleEvent(ev: Event)
      modifies this
      ensures State() == Step(old(State()), ev)
    {
      if ev.Cancel? {
        cancelled := true;
      } else if ev.LossSeen? {
        OnLoss();
      } else if exit.None? && panicked.None? {
        match ev {
          case MsgIn(msg) => OnMessage(msg);
          case BusClosed => exit := Some(EXIT_TX_DROPPED);
          case AckDone(i, o) => OnAck(i, o);
          case DummyAckDone =>
            if cancelled && dummyAck {
              dummyAck := false;
              reports := reports + [Acked(0, true)];
            }
          case AckSetEmpty =>
            if !dummyAck && |ackTasks| == 0 {
              exit := Some(EXIT_ACKS_EMPTY);
            }
          case StatusIn => OnStatus();
          case ConnectDone(o) => OnConnect(o);
          case DummyConnectDone =>
            if cancelled && dummyConnect {
              dummyConnect := false;
              realConnects := realConnects + 1;
            }
          case ConnectSetEmpty =>
            if !dummyConnect && realConnects == 0 {
              exit := Some(EXIT_CONNECTS_EMPTY);
            }
          case ShutdownSeen =>
            if cancelled {
              exit := Some(EXIT_SHUTDOWN);
            }
        }
      }
    }

    /** The loop over a run of events. */
    method Run(evs: seq<Event>)
      modifies this
      ensures State() == Steps(old(State()), evs)
      ensures old(Inv(State())) ==> Inv(State())
    {
      ghost var s0 := State();
      for i := 0 to |evs|
        invariant Steps(s0, evs) == Steps(State(), evs[i..])
        invariant Inv(s0) ==> Inv(State())
      {
        assert evs[i..][1..] == evs[i + 1..];
        if Inv(State()) {
          StepKeepsInv(State(), evs[i]);
        }
        HandleEvent(evs[i]);
      }
    }
  }
}
