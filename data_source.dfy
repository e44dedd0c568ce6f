/** The message bus between data sources and the main loop: every sender clone
    shares one id counter and one bounded queue. Sending never waits: each message
    takes the next id from the counter (which wraps at u32::MAX), and a message
    that finds the queue full, or the receiver gone, is dropped with its id spent.
    The receiver reads messages oldest first. */
module DataSourceCore {
  import opened Ints

  datatype MsgBusData = MsgBusData(id: u32, payload: seq<u8>, retryCount: u32)

  /** The queue holds at most one hundred messages. */
  const QUEUE_CAPACITY: nat := 100

  /** What the senders and the receiver share: the next id, the queued messages,
      how many sender clones exist and whether the receiver still exists. */
  datatype BusState = BusState(counter: u32, queue: seq<MsgBusData>, senders: nat, receiverAlive: bool)

  predicate Bounded(s: BusState) {
    |s.queue| <= QUEUE_CAPACITY
  }

  /** The state `TxData::new` creates: counter zero, nothing queued, one sender. */
  function NewBus(): (s: BusState)
    ensures Bounded(s) && s.senders == 1 && s.receiverAlive
    ensures s.counter == 0 && s.queue == []
  {
    BusState(0, [], 1, true)
  }

  /** `send`: the message gets the counter's value as its id, a copy of the bytes
      and retry count 0; it is queued only when there is room and a receiver. */
  function Sending(s: BusState, data: seq<u8>): BusState {
    var m := MsgBusData(s.counter, data, 0);
    var queue := if s.receiverAlive && |s.queue| < QUEUE_CAPACITY then s.queue + [m] else s.queue;
    s.(counter := WrappingIncU32(s.counter), queue := queue)
  }

  function SendAll(s: BusState, batch: seq<seq<u8>>): BusState
    decreases |batch|
  {
    if |batch| == 0 then s else SendAll(Sending(s, batch[0]), batch[1..])
  }

  /** The messages a run of sends builds, starting from counter `c`. */
  function Numbered(c: u32, batch: seq<seq<u8>>): (r: seq<MsgBusData>)
    ensures |r| == |batch|
    decreases |batch|
  {
    if |batch| == 0 then [] else [MsgBusData(c, batch[0], 0)] + Numbered(WrappingIncU32(c), batch[1..])
  }

  datatype Received = Pending | Got(msg: MsgBusData) | Finished

  /** `recv`: the oldest queued message; with nothing queued it waits while some
      sender exists and reports the end (`None`) once all are gone. */
  function Receiving(s: BusState): (Received, BusState) {
    if |s.queue| > 0 then (Got(s.queue[0]), s.(queue := s.queue[1..]))
    else if s.senders > 0 then (Pending, s)
    else (Finished, s)
  }

  // ---------------------------------------------------------------------------
  // Properties

  /** Sends and receives never overfill the queue. */
  lemma BoundedKept(s: BusState, data: seq<u8>)
    requires Bounded(s)
    ensures Bounded(Sending(s, data)) && Bounded(Receiving(s).1)
  {
  }

  /** A send to a full queue drops the message but still spends its id. */
  lemma FullQueueDropsButSpendsId(s: BusState, data: seq<u8>)
    requires |s.queue| == QUEUE_CAPACITY
    ensures Sending(s, data).queue == s.queue
    ensures Sending(s, data).counter == (s.counter + 1) % U32_LIMIT
  {
  }

  /** After a run of sends the counter has advanced once per send, whatever was dropped. */
  lemma {:induction false} SendAllCounter(s: BusState, batch: seq<seq<u8>>)
    ensures SendAll(s, batch).counter == (s.counter + |batch|) % U32_LIMIT
    ensures SendAll(s, batch).senders == s.senders
    decreases |batch|
  {
    if |batch| > 0 {
      var s1 := Sending(s, batch[0]);
      SendAllCounter(s1, batch[1..]);
      assert s1.counter == (s.counter + 1) % U32_LIMIT;
    }
  }

  /** With room for all of them, a run of sends queues every message, in send order. */
  lemma {:induction false} SendAllQueued(s: BusState, batch: seq<seq<u8>>)
    requires s.receiverAlive && |s.queue| + |batch| <= QUEUE_CAPACITY
    ensures SendAll(s, batch).queue == s.queue + Numbered(s.counter, batch)
    decreases |batch|
  {
    if |batch| > 0 {
      var s1 := Sending(s, batch[0]);
      var m := MsgBusData(s.counter, batch[0], 0);
      var rest := Numbered(s1.counter, batch[1..]);
      SendAllQueued(s1, batch[1..]);
      assert s1.queue == s.queue + [m];
      assert Numbered(s.counter, batch) == [m] + rest;
      assert (s.queue + [m]) + rest == s.queue + ([m] + rest);
    }
  }

  /** The messages of a run are numbered consecutively from the counter (modulo
      2^32), carry their bytes unchanged and retry count 0. */
  lemma {:induction false} NumberedConsecutively(c: u32, batch: seq<seq<u8>>, i: nat)
    requires i < |batch|
    ensures Numbered(c, batch)[i] == MsgBusData((c + i) % U32_LIMIT, batch[i], 0)
    decreases i
  {
    if i > 0 {
      NumberedConsecutively(WrappingIncU32(c), batch[1..], i - 1);
      assert (WrappingIncU32(c) + (i - 1)) % U32_LIMIT == (c + i) % U32_LIMIT;
    }
  }

  /** Messages leave in the order they were sent: a message sent to an empty queue
      is the next one received, unchanged. */
  lemma SendThenRecv(s: BusState, data: seq<u8>)
    requires s.receiverAlive && |s.queue| == 0
    ensures Receiving(Sending(s, data)).0 == Got(MsgBusData(s.counter, data, 0))
    ensures Receiving(Sending(s, data)).1.queue == []
  {
  }

  /** A queued message is received before any message sent after it. */
  lemma RecvIsFifo(s: BusState, data: seq<u8>)
    requires |s.queue| > 0
    ensures Receiving(Sending(s, data)).0 == Receiving(s).0
  {
  }

  /** The receiver reports the end only once every sender is gone and the queue is drained. */
  lemma RecvFinishedIff(s: BusState)
    ensures Receiving(s).0 == Finished <==> (s.senders == 0 && |s.queue| == 0)
    ensures Receiving(s).0 == Pending <==> (s.senders > 0 && |s.queue| == 0)
  {
  }

  // ---------------------------------------------------------------------------
  // The shared bus and its handles

  /** The channel and the `Arc<AtomicU32>` counter that every `TxData` clone points to. */
  class Bus {
    var counter: u32
    var queue: seq<MsgBusData>
    var senders: nat
    var receiverAlive: bool

    function State(): BusState
      reads this
    {
      BusState(counter, queue, senders, receiverAlive)
    }

    constructor()
      ensures State() == NewBus()
    {
      counter, queue, senders, receiverAlive := 0, [], 1, true;
    }
  }

  /** A sender handle; clones share the bus. */
  class TxData {
    const bus: Bus

    constructor(b: Bus)
      ensures bus == b
    {
      bus := b;
    }

    /** `TxData::new`: a fresh bus with one sender and its receiver. */
    static method NewChannel() returns (tx: TxData, rx: RxData)
      ensures fresh(tx) && fresh(rx) && fresh(tx.bus)
      ensures tx.bus == rx.bus && tx.bus.State() == NewBus()
    {
      var b := new Bus();
      tx := new TxData(b);
      rx := new RxData(b);
    }

    /** `clone`: another handle on the same bus. */
    method Clone() returns (c: TxData)
      modifies bus
      ensures fresh(c) && c.bus == bus
      ensures bus.State() == old(bus.State()).(senders := old(bus.senders) + 1)
    {
      c := new TxData(bus);
      bus.senders := bus.senders + 1;
    }

    method Send(data: seq<u8>)
      modifies bus
      ensures bus.State() == Sending(old(bus.State()), data)
    {
      var id := bus.counter;
      bus.counter := WrappingIncU32(bus.counter);
      if bus.receiverAlive && |bus.queue| < QUEUE_CAPACITY {
        bus.queue := bus.queue + [MsgBusData(id, data, 0)];
      }
    }

    method Drop()
      modifies bus
      requires bus.senders > 0
      ensures bus.State() == old(bus.State()).(senders := old(bus.senders) - 1)
    {
      bus.senders := bus.senders - 1;
    }
  }

  /** The receiving handle. */
  class RxData {
    const bus: Bus

    constructor(b: Bus)
      ensures bus == b
    {
      bus := b;
    }

    method Recv() returns (r: Received)
      modifies bus
      ensures (r, bus.State()) == Receiving(old(bus.State()))
    {
      if |bus.queue| > 0 {
        r := Got(bus.queue[0]);
        bus.queue := bus.queue[1..];
      } else if bus.senders > 0 {
        r := Pending;
      } else {
        r := Finished;
      }
    }

    method Drop()
      modifies bus
      ensures bus.State() == old(bus.State()).(receiverAlive := false)
    {
      bus.receiverAlive := false;
    }
  }

  // ---------------------------------------------------------------------------
  // The factory

  datatype MsgBusDataFactory = MsgBusDataFactory(retryCount: u32)

  function NewFactory(): (f: MsgBusDataFactory)
    ensures f.retryCount == 1
  {
    MsgBusDataFactory(1)
  }

  /** `msg`: id 0, a copy of the bytes and the factory's retry count. */
  function Msg(f: MsgBusDataFactory, data: seq<u8>): MsgBusData {
    MsgBusData(0, data, f.retryCount)
  }

  /** A factory message differs from a sent one with the same bytes only in its id
      (0 against the counter) and its retry count (1 against 0). */
  lemma FactoryMarksRetry(data: seq<u8>, s: BusState)
    requires s.receiverAlive && |s.queue| < QUEUE_CAPACITY
    ensures Sending(s, data).queue == s.queue + [Msg(NewFactory(), data).(id := s.counter, retryCount := 0)]
    ensures Msg(NewFactory(), data).id == 0
    ensures Msg(NewFactory(), data).retryCount == 1
  {
  }
}
