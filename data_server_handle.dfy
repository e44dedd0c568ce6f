/** The handle the main loop uses to report events to the data server: each
    report is stamped with the wall clock and offered to a ten-slot channel
    without waiting; dropping the handle aborts the server task once. */
module DataServerHandle {
  import opened Wrappers
  import opened Ints
  import opened Channels
  import opened DataService

  /** The capacity of the event channel the server reads. */
  const EVENT_CHANNEL_CAPACITY: nat := 10

  /** `get_time`: the clock, read as signed milliseconds since the Unix epoch,
      or 0 when it reads earlier than the epoch. */
  function GetTime(clockMs: int): (t: EpochTimeMs)
    ensures clockMs >= 0 ==> t == clockMs
    ensures clockMs < 0 ==> t == 0
  {
    if clockMs < 0 then 0 else clockMs
  }

  /** Timestamps never run backwards while the clock does not. */
  lemma GetTimeMonotone(a: int, b: int)
    requires a <= b
    ensures GetTime(a) <= GetTime(b)
  {
  }

  /** The events the four `event_*` reporters build. */
  function EventConnection(connected: bool, clockMs: int): (ev: DataEvent)
    ensures ev.Connection? && ev.conn.connected == connected && ev.conn.utcTime == GetTime(clockMs)
  {
    Connection(ConnectionEvent(GetTime(clockMs), connected))
  }

  function EventRxData(id: u32, clockMs: int): (ev: DataEvent)
    ensures ev.NewMsg? && ev.id == id && ev.utcTime == GetTime(clockMs)
  {
    NewMsg(id, GetTime(clockMs))
  }

  function EventPubData(id: u32, clockMs: int): (ev: DataEvent)
    ensures ev.PubMsg? && ev.id == id && ev.utcTime == GetTime(clockMs)
  {
    PubMsg(id, GetTime(clockMs))
  }

  function EventPubAck(id: u32, success: bool, clockMs: int): (ev: DataEvent)
    ensures ev.AckMsg? && ev.id == id && ev.success == success && ev.utcTime == GetTime(clockMs)
  {
    AckMsg(id, GetTime(clockMs), success)
  }

  /** The channel the handle sends on and the server task reads. */
  class EventChannel {
    var queue: seq<DataEvent>
    var receiverAlive: bool

    constructor()
      ensures queue == [] && receiverAlive
    {
      queue, receiverAlive := [], true;
    }
  }

  /** What the server task does with one event it receives: hands it to the
      service. The channel is left with the rest. */
  method ServeOne(ch: EventChannel, service: Service) returns (got: bool)
    modifies ch, service.store
    ensures got <==> |old(ch.queue)| > 0
    ensures got ==> ch.queue == old(ch.queue)[1..]
                    && service.store.State() == Handling(old(service.store.State()), old(ch.queue)[0])
    ensures !got ==> ch.queue == old(ch.queue) && service.store.State() == old(service.store.State())
  {
    if |ch.queue| > 0 {
      var ev := ch.queue[0];
      ch.queue := ch.queue[1..];
      service.HandleEvent(ev);
      got := true;
    } else {
      got := false;
    }
  }

  class Handle {
    /** The server task, by id, while it has not been taken out for aborting. */
    var task: Option<nat>
    /** The tasks aborted so far, in order. */
    var aborted: seq<nat>
    const events: EventChannel

    constructor(t: nat, ch: EventChannel)
      ensures task == Some(t) && aborted == [] && events == ch
    {
      task, aborted, events := Some(t), [], ch;
    }

    /** `send_data`: `try_send`; on a full or closed channel the event is discarded. */
    method SendData(ev: DataEvent) returns (err: Option<TrySendError>)
      modifies events
      ensures (events.queue, err) == TrySend(old(events.queue), EVENT_CHANNEL_CAPACITY, old(events.receiverAlive), ev)
      ensures events.receiverAlive == old(events.receiverAlive)
    {
      if !events.receiverAlive {
        err := Some(Closed);
      } else if |events.queue| < EVENT_CHANNEL_CAPACITY {
        events.queue := events.queue + [ev];
        err := None;
      } else {
        err := Some(Full);
      }
    }

    method ReportConnection(connected: bool, clockMs: int)
      modifies events
      ensures events.queue == TrySend(old(events.queue), EVENT_CHANNEL_CAPACITY, old(events.receiverAlive), EventConnection(connected, clockMs)).0
      ensures events.receiverAlive == old(events.receiverAlive)
    {
      var _ := SendData(EventConnection(connected, clockMs));
    }

    method ReportRxData(id: u32, clockMs: int)
      modifies events
      ensures events.queue == TrySend(old(events.queue), EVENT_CHANNEL_CAPACITY, old(events.receiverAlive), EventRxData(id, clockMs)).0
      ensures events.receiverAlive == old(events.receiverAlive)
    {
      var _ := SendData(EventRxData(id, clockMs));
    }

    method ReportPubData(id: u32, clockMs: int)
      modifies events
      ensures events.queue == TrySend(old(events.queue), EVENT_CHANNEL_CAPACITY, old(events.receiverAlive), EventPubData(id, clockMs)).0
      ensures events.receiverAlive == old(events.receiverAlive)
    {
      var _ := SendData(EventPubData(id, clockMs));
    }

    method ReportPubAck(id: u32, success: bool, clockMs: int)
      modifies events
      ensures events.queue == TrySend(old(events.queue), EVENT_CHANNEL_CAPACITY, old(events.receiverAlive), EventPubAck(id, success, clockMs)).0
      ensures events.receiverAlive == old(events.receiverAlive)
    {
      var _ := SendData(EventPubAck(id, success, clockMs));
    }

    /** `drop`: the task is taken out of its slot and aborted. */
    method Drop()
      modifies this
      ensures task.None?
      ensures aborted == old(aborted) + (if old(task).Some? then [old(task).value] else [])
    {
      if task.Some? {
        aborted := aborted + [task.value];
        task := None;
      }
    }
  }

  /** A report made while the channel has room reaches the server: the server task
      files every event queued before it, in order, and then this one, at the end
      of the message list. */
  method ReportReachesService(h: Handle, service: Service, id: u32, clockMs: int)
    modifies h.events, service.store
    requires h.events.receiverAlive && |h.events.queue| < EVENT_CHANNEL_CAPACITY
    ensures service.store.State()
            == Handling(HandleAll(old(service.store.State()), old(h.events.queue)), PubMsg(id, GetTime(clockMs)))
    ensures service.store.State().msgs
            == HandleAll(old(service.store.State()), old(h.events.queue)).msgs + [PubMsg(id, GetTime(clockMs))]
    ensures h.events.queue == []
  {
    ghost var start := service.store.State();
    ghost var earlier := h.events.queue;
    h.ReportPubData(id, clockMs);
    ghost var all := h.events.queue;
    assert all == earlier + [PubMsg(id, GetTime(clockMs))];
    while |h.events.queue| > 0
      invariant |h.events.queue| <= |all|
      invariant h.events.queue == all[|all| - |h.events.queue|..]
      invariant service.store.State() == HandleAll(start, all[..|all| - |h.events.queue|])
      decreases |h.events.queue|
    {
      ghost var k := |all| - |h.events.queue|;
      ghost var before := service.store.State();
      var _ := ServeOne(h.events, service);
      assert all[..k + 1] == all[..k] + [all[k]];
      HandleAllThenOne(start, all[..k], all[k]);
    }
    assert all[..|all|] == all;
    HandleAllThenOne(start, earlier, PubMsg(id, GetTime(clockMs)));
  }
}
