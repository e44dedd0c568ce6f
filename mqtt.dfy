/** The parts of the MQTT 3.1.1 client library (rumqttc) that the HiveMQ adapter
    touches: quality of service levels, CONNACK return codes (section 3.2.2.3 of
    MQTT 3.1.1), the incoming and outgoing events its event loop reports, its
    connection errors, and the requests the client handle queues for the loop. */
module Mqtt {
  import opened Wrappers
  import opened Ints
  import opened Strings

  datatype QoS = AtMostOnce | AtLeastOnce | ExactlyOnce

  datatype ConnectReturnCode =
    | Success
    | RefusedProtocolVersion
    | BadClientId
    | ServiceUnavailable
    | BadUserNamePassword
    | NotAuthorized

  /** The byte the broker sends for each code (`code as u8`). */
  function CodeByte(c: ConnectReturnCode): u8 {
    match c
    case Success => 0
    case RefusedProtocolVersion => 1
    case BadClientId => 2
    case ServiceUnavailable => 3
    case BadUserNamePassword => 4
    case NotAuthorized => 5
  }

  /** Reading a CONNACK return code byte; 6 to 255 are reserved. */
  function CodeFromByte(b: u8): (r: Option<ConnectReturnCode>)
    ensures r.Some? <==> b <= 5
  {
    match b
    case 0 => Some(Success)
    case 1 => Some(RefusedProtocolVersion)
    case 2 => Some(BadClientId)
    case 3 => Some(ServiceUnavailable)
    case 4 => Some(BadUserNamePassword)
    case 5 => Some(NotAuthorized)
    case _ => None
  }

  /** The code byte and the code determine each other. */
  lemma CodeByteRoundTrip(c: ConnectReturnCode, b: u8)
    ensures CodeFromByte(CodeByte(c)) == Some(c)
    ensures CodeFromByte(b) == Some(c) ==> CodeByte(c) == b
  {
  }

  /** The `Debug` name of each code. */
  function CodeName(c: ConnectReturnCode): string {
    match c
    case Success => "Success"
    case RefusedProtocolVersion => "RefusedProtocolVersion"
    case BadClientId => "BadClientId"
    case ServiceUnavailable => "ServiceUnavailable"
    case BadUserNamePassword => "BadUserNamePassword"
    case NotAuthorized => "NotAuthorized"
  }

  /** Packets the event loop reports as received. Only the fields the adapter reads are kept. */
  datatype Packet =
    | PubAck(pkid: u16)
    | ConnAck(sessionPresent: bool, code: ConnectReturnCode)
    | SubAck(pkid: u16)
    | PingResp
    | Disconnect
    | Connect
    | Publish
    | PubRec(pkid: u16)
    | PubRel(pkid: u16)
    | PubComp(pkid: u16)
    | Subscribe(pkid: u16)
    | Unsubscribe(pkid: u16)
    | UnsubAck(pkid: u16)
    | PingReq

  /** What the event loop reports as sent. */
  datatype Outgoing =
    | OutPublish(pkid: u16)
    | OutSubscribe(pkid: u16)
    | OutUnsubscribe(pkid: u16)
    | OutPubAck(pkid: u16)
    | OutPubRec(pkid: u16)
    | OutPubRel(pkid: u16)
    | OutPubComp(pkid: u16)
    | OutPingReq
    | OutPingResp
    | OutDisconnect
    | OutAwaitAck(pkid: u16)

  datatype Event = Incoming(packet: Packet) | Outgoing(out: Outgoing)

  /** `rumqttc::ConnectionError`, reduced to the two kinds the adapter tells apart and
      the display text of every other kind. */
  datatype PollError = MqttState(detail: string) | NetworkTimeout | OtherError(text: string)

  /** The Sparkplug B payload the transform builds: the caller's bytes as the body
      and the transform's sequence number; the metric list is fixed and the
      timestamp is read from the clock. */
  datatype Payload = Payload(seqNo: u64, body: seq<u8>)

  /** Requests the client handle queues for the event loop. A publish also names
      the message id it was made for (`origin`); this is bookkeeping of the model
      and is not sent to the broker. */
  datatype Request =
    | PublishRequest(topic: string, qos: QoS, retain: bool, payload: Payload, origin: u32)
    | SubscribeRequest(topic: string, qos: QoS)
    | DisconnectRequest

  /** `AsyncClient::new(options, 10)`: the request channel holds at most ten requests. */
  const REQUEST_CAPACITY: nat := 10

  /** Display text of the client's error when a request cannot be queued. */
  const CLIENT_ERROR_TEXT: string := "Failed to send mqtt requests to eventloop"

  /** The text the HiveMQ adapter reports for a refused connection: the code's name and its byte. */
  function RefusalText(c: ConnectReturnCode): string {
    CodeName(c) + " code: [" + NatToDecimal(CodeByte(c)) + "]"
  }

  /** The code's byte is the last digit of its refusal text. */
  lemma RefusalTextDigit(c: ConnectReturnCode)
    ensures var t := RefusalText(c); |t| >= 2 && t[|t| - 2] == DigitChar(CodeByte(c))
  {
    var d := NatToDecimal(CodeByte(c));
    assert d == [DigitChar(CodeByte(c))];
    var t := RefusalText(c);
    assert t == (CodeName(c) + " code: [") + d + "]";
  }

  /** The refusal text identifies the code. */
  lemma RefusalTextInjective(a: ConnectReturnCode, b: ConnectReturnCode)
    ensures RefusalText(a) == RefusalText(b) <==> a == b
  {
    if a != b {
      RefusalTextDigit(a);
      RefusalTextDigit(b);
      CodeByteRoundTrip(a, CodeByte(b));
      assert CodeByte(a) != CodeByte(b);
      assert DigitChar(CodeByte(a)) != DigitChar(CodeByte(b));
    }
  }

}
