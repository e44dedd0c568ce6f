/** The development adapter: a stand-in cloud adapter whose every operation
    succeeds after a fixed delay. Publishing only checks that the payload is
    text; every acknowledgement reports message id 0; each connection is lost,
    as a timeout, ten seconds after it was made.

    Delays are kept as the durations the adapter sleeps, in milliseconds; the
    clock itself is not modelled. */
module DevAdapter {
  import opened Wrappers
  import opened Ints
  import opened Channels
  import opened AdapterCore
  import Utf8
  import DataSourceCore


  /** The sleep behind a delivery token, and the one behind a connection token. */
  const ACK_DELAY_MS: nat := 100
  const CONNECT_DELAY_MS: nat := 500
  /** How long after `connect` the connection is reported lost. */
  const LOSS_DELAY_MS: nat := 10_000

  /** A delivery token: a name and the sleep it waits out. */
  datatype DeliverContext = DeliverContext(id: string, delayMs: nat)

  /** `publish`: the payload is read as UTF-8 (`from_utf8(..).unwrap()`), then a
      token that sleeps 100 ms is returned. */
  function Publish(msg: DataSourceCore.MsgBusData): (r: Exec<DeliverContext>)
    ensures r.Panics? <==> !Utf8.Valid(msg.payload)
    ensures r.Returns? ==> r.value.delayMs == ACK_DELAY_MS
  {
    if Utf8.Valid(msg.payload) then Returns(DeliverContext("dev", ACK_DELAY_MS)) else Panics(UNWRAP_PANIC)
  }

  /** `wait_for_ack`: after the token's sleep, always `Ok(0)`; the outcome and the
      wait do not depend on the message. */
  function WaitForAck(ctx: DeliverContext): (r: (Result<u32, DeliveryError>, nat)) {
    (Ok(0), ctx.delayMs)
  }

  /** Whatever message was published, its acknowledgement reports id 0 after 100 ms. */
  lemma AckIsAlwaysZero(msg: DataSourceCore.MsgBusData)
    requires Utf8.Valid(msg.payload)
    ensures Publish(msg).Returns?
    ensures WaitForAck(Publish(msg).value) == (Ok(0), ACK_DELAY_MS)
  {
  }

  /** A payload that is not text makes `publish` panic before any token exists. */
  lemma NonTextPanics()
    ensures Publish(DataSourceCore.MsgBusData(7, [0xFF], 0)).Panics?
  {
    Utf8.InvalidExamples();
  }

  /** What `connect` sets up: the token (ready after its sleep with the loss
      receiver), the loss channel, and the one loss it schedules. */
  datatype DevConnection = DevConnection(
    token: TokenConnection<Result<WatchRx, ConnectionError>>,
    tokenDelayMs: nat,
    lost: Watch<ConnectionLost>,
    scheduled: (nat, ConnectionLost))

  /** `connect`: never fails. The loss receiver has already seen the placeholder
      value when the token hands it out. */
  function Connect(): (r: Result<DevConnection, ConnectionError>)
    ensures r.Ok?
    ensures var c := r.value;
            c.tokenDelayMs == CONNECT_DELAY_MS
            && AwaitConnection(c.token).0.Ok?
            && c.scheduled == (LOSS_DELAY_MS, Timeout)
  {
    var w := Watch(Uncategorized("init"), 0);
    var (_, rx) := BorrowAndUpdate(w, WatchRx(0));
    Ok(DevConnection(TokenConnection(Future(0, Ok(rx))), CONNECT_DELAY_MS, w, (LOSS_DELAY_MS, Timeout)))
  }

  /** The receiver the token yields sees no change until the scheduled loss is
      sent, and then exactly one: a timeout. */
  lemma OnlyScheduledLossCounts()
    ensures var c := Connect().value;
            var rx := AwaitConnection(c.token).0.value;
            var later := SendReplace(c.lost, c.scheduled.1);
            !HasChanged(c.lost, rx)
            && HasChanged(later, rx) && later.value == Timeout
            && !HasChanged(later, BorrowAndUpdate(later, rx).1)
  {
  }

  /** `disconnect`: never fails, and its token is ready at once with `Ok(())`
      because the sender it waits on is dropped when the token is made. */
  function Disconnect(): (r: Result<TokenDisconnect<Result<(), ConnectionError>>, ConnectionError>)
    ensures r.Ok? && AwaitDisconnect(r.value) == (Ok(()), 1)
  {
    Ok(TokenDisconnect(Future(0, Ok(()))))
  }
}
