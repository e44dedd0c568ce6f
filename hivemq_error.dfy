/** The HiveMQ adapter's own error values, their display texts, and how they are
    turned into the adapter-level error. */
module HiveMQError {
  import opened Wrappers
  import AdapterCore

  datatype SpecialHiveMQError = Init(detail: string) | Publish(detail: string) | PubAck(detail: string) | Connect(detail: string)

  function Prefix(e: SpecialHiveMQError): string {
    match e
    case Init(_) => "initialization: ["
    case Publish(_) => "publish: ["
    case PubAck(_) => "publish acknowledgement: ["
    case Connect(_) => "connect: ["
  }

  function ErrorText(e: SpecialHiveMQError): (t: string)
    ensures |t| > |Prefix(e)|
  {
    Prefix(e) + e.detail + "]"
  }

  /** The display text determines the error: the variant from its prefix, the
      detail from what lies between the prefix and the closing bracket. */
  lemma ErrorTextInjective(a: SpecialHiveMQError, b: SpecialHiveMQError)
    ensures ErrorText(a) == ErrorText(b) <==> a == b
  {
    var ta, tb := ErrorText(a), ErrorText(b);
    if ta == tb {
      // The four prefixes differ in their first or their eighth character.
      assert ta[0] == Prefix(a)[0] && ta[7] == Prefix(a)[7];
      assert tb[0] == Prefix(b)[0] && tb[7] == Prefix(b)[7];
      assert Prefix(a) == Prefix(b);
      assert a.detail == ta[|Prefix(a)|..|ta| - 1];
      assert b.detail == tb[|Prefix(b)|..|tb| - 1];
    }
  }

  const TODO_PANIC: string := "not yet implemented"

  /** `From<SpecialHiveMQError> for cloud_adapter_core::Error`: only an
      initialization error converts; the other variants reach `todo!()`. */
  function IntoCoreError(e: SpecialHiveMQError): (r: Exec<AdapterCore.Error>)
    ensures r.Returns? <==> e.Init?
    ensures r.Returns? ==> r.value == AdapterCore.Initialization(e.detail)
  {
    match e
    case Init(d) => Returns(AdapterCore.Initialization(d))
    case _ => Panics(TODO_PANIC)
  }

  /** The reason a publish task reports when its oneshot was closed: the text of
      tokio's `RecvError` inside the adapter's wording. */
  const LOST_ACK: SpecialHiveMQError := PubAck("no ack: [channel closed]")

  lemma LostAckText()
    ensures ErrorText(LOST_ACK) == "publish acknowledgement: [no ack: [channel closed]]"
  {
    assert ErrorText(LOST_ACK) == "publish acknowledgement: [" + "no ack: [channel closed]" + "]";
  }
}
