/** The metrics viewer's data collection: a fetched list of publish and
    acknowledgement events is folded into one record per published message
    (publish time, and acknowledgement time once a successful acknowledgement
    follows), and fetched batches replace the viewer's lists wholesale. */
module MetricsViewer {
  import opened Wrappers
  import opened Ints

  /** Milliseconds since the Unix epoch. */
  type EpochTimeMs = nat

  /** The events the viewer decodes from the data server's message list. */
  datatype ViewerEvent =
    | PubMsg(id: u32, utcTime: EpochTimeMs)
    | AckMsg(id: u32, utcTime: EpochTimeMs, success: bool)

  datatype MsgEventData = MsgEventData(publishTimeMs: EpochTimeMs, ackTimeMs: Option<EpochTimeMs>, id: u32)

  datatype ConnEventData = ConnEventData(utcTime: EpochTimeMs, connected: bool)

  /** One iteration of the fold in `get_msg_events`. */
  function Apply(m: map<u32, MsgEventData>, ev: ViewerEvent): map<u32, MsgEventData> {
    match ev
    case PubMsg(id, t) => m[id := MsgEventData(t, None, id)]
    case AckMsg(id, t, success) =>
      if id in m then m[id := if success then m[id].(ackTimeMs := Some(t)) else m[id]] else m
  }

  /** The records a list of events folds into, oldest event first. */
  function Records(evs: seq<ViewerEvent>): map<u32, MsgEventData>
    decreases |evs|
  {
    if |evs| == 0 then map[] else Apply(Records(evs[..|evs| - 1]), evs[|evs| - 1])
  }

  /** The four cases of one step: a publish (over)writes its record with no ack; a
      successful ack of a known id sets only the ack time; a failed ack or an ack of
      an unknown id changes nothing. No other record is touched. */
  lemma ApplyCases(m: map<u32, MsgEventData>, ev: ViewerEvent)
    ensures ev.PubMsg? ==> Apply(m, ev)[ev.id] == MsgEventData(ev.utcTime, None, ev.id)
    ensures ev.AckMsg? && ev.success && ev.id in m ==> Apply(m, ev)[ev.id] == m[ev.id].(ackTimeMs := Some(ev.utcTime))
    ensures ev.AckMsg? && (!ev.success || ev.id !in m) ==> Apply(m, ev) == m
    ensures forall k :: k != ev.id ==> (k in Apply(m, ev) <==> k in m)
    ensures forall k :: k != ev.id && k in m ==> Apply(m, ev)[k] == m[k]
  {
  }

  // ---------------------------------------------------------------------------
  // A reference reading of the records, scanning the list from its end

  /** The time of the last publish of `k`, if any. */
  function LastPubTime(evs: seq<ViewerEvent>, k: u32): Option<EpochTimeMs>
    decreases |evs|
  {
    if |evs| == 0 then None
    else
      var last := evs[|evs| - 1];
      if last.PubMsg? && last.id == k then Some(last.utcTime) else LastPubTime(evs[..|evs| - 1], k)
  }

  /** The time of the last successful ack of `k` that follows its last publish. */
  function AckAfterLastPub(evs: seq<ViewerEvent>, k: u32): Option<EpochTimeMs>
    decreases |evs|
  {
    if |evs| == 0 then None
    else
      var last := evs[|evs| - 1];
      var before := evs[..|evs| - 1];
      if last.id != k then AckAfterLastPub(before, k)
      else if last.PubMsg? then None
      else if last.success && LastPubTime(before, k).Some? then Some(last.utcTime)
      else AckAfterLastPub(before, k)
  }

  /** There is exactly one record per published id, and it holds the last publish
      time of that id and the last successful acknowledgement after it. */
  lemma {:induction false} RecordsMatchReference(evs: seq<ViewerEvent>, k: u32)
    ensures k in Records(evs) <==> LastPubTime(evs, k).Some?
    ensures k in Records(evs) ==>
              Records(evs)[k] == MsgEventData(LastPubTime(evs, k).value, AckAfterLastPub(evs, k), k)
    decreases |evs|
  {
    if |evs| > 0 {
      var before := evs[..|evs| - 1];
      RecordsMatchReference(before, k);
    }
  }

  /** A publish after an acknowledged record resets it: the ack is forgotten. */
  lemma RepublishForgetsAck(id: u32, t1: EpochTimeMs, t2: EpochTimeMs, t3: EpochTimeMs)
    ensures Records([PubMsg(id, t1), AckMsg(id, t2, true), PubMsg(id, t3)])[id] == MsgEventData(t3, None, id)
  {
    var evs := [PubMsg(id, t1), AckMsg(id, t2, true), PubMsg(id, t3)];
    assert evs[..2] == [PubMsg(id, t1), AckMsg(id, t2, true)];
  }

  /** An acknowledgement that arrives in the list before its publish is ignored. */
  lemma EarlyAckIgnored(id: u32, t1: EpochTimeMs, t2: EpochTimeMs)
    ensures Records([AckMsg(id, t1, true), PubMsg(id, t2)])[id] == MsgEventData(t2, None, id)
  {
    var evs := [AckMsg(id, t1, true), PubMsg(id, t2)];
    assert evs[..1] == [AckMsg(id, t1, true)];
    assert Records(evs[..1]) == map[];
  }

  /** The fold of `get_msg_events`, as the loop it is. */
  method Collect(data: seq<ViewerEvent>) returns (m: map<u32, MsgEventData>)
    ensures m == Records(data)
  {
    m := map[];
    for i := 0 to |data|
      invariant m == Records(data[..i])
    {
      assert data[..i + 1][..i] == data[..i];
      m := Apply(m, data[i]);
    }
    assert data[..|data|] == data;
  }

  /** `map.into_values().collect()`: every record once, in the map's own order. */
  method Values(m: map<u32, MsgEventData>) returns (vs: seq<MsgEventData>)
    requires forall k :: k in m ==> m[k].id == k
    ensures |vs| == |m|
    ensures forall i :: 0 <= i < |vs| ==> vs[i].id in m && m[vs[i].id] == vs[i]
    ensures forall k :: k in m ==> m[k] in vs
  {
    vs := [];
    var rest := m;
    while rest != map[]
      invariant rest.Keys <= m.Keys
      invariant forall k :: k in rest ==> rest[k] == m[k]
      invariant |vs| + |rest| == |m|
      invariant forall i :: 0 <= i < |vs| ==> vs[i].id in m && vs[i].id !in rest && m[vs[i].id] == vs[i]
      invariant forall k :: k in m && k !in rest ==> m[k] in vs
      decreases |rest|
    {
      var k :| k in rest;
      vs := vs + [rest[k]];
      rest := rest - {k};
    }
  }

  /** Each record is filed under its own id. */
  lemma {:induction false} RecordsKeyedById(evs: seq<ViewerEvent>)
    ensures forall k :: k in Records(evs) ==> Records(evs)[k].id == k
    decreases |evs|
  {
    if |evs| > 0 {
      RecordsKeyedById(evs[..|evs| - 1]);
    }
  }

  // ---------------------------------------------------------------------------
  // The viewer's state

  class RustyBridgeData {
    var connectionEvents: seq<ConnEventData>
    var msgEvents: seq<MsgEventData>
    /** Batches the fetch callbacks have sent and `try_recv` has not taken yet. */
    var msgInbox: seq<seq<MsgEventData>>
    var connInbox: seq<seq<ConnEventData>>

    constructor()
      ensures connectionEvents == [] && msgEvents == [] && msgInbox == [] && connInbox == []
    {
      connectionEvents, msgEvents, msgInbox, connInbox := [], [], [], [];
    }

    /** `try_recv`: each list is replaced by the oldest waiting batch of its kind,
        or left as it is when none waits. */
    method TryRecv()
      modifies this
      ensures old(msgInbox) == [] ==> msgEvents == old(msgEvents) && msgInbox == []
      ensures old(msgInbox) != [] ==> msgEvents == old(msgInbox)[0] && msgInbox == old(msgInbox)[1..]
      ensures old(connInbox) == [] ==> connectionEvents == old(connectionEvents) && connInbox == []
      ensures old(connInbox) != [] ==> connectionEvents == old(connInbox)[0] && connInbox == old(connInbox)[1..]
    {
      if msgInbox != [] {
        msgEvents := msgInbox[0];
        msgInbox := msgInbox[1..];
      }
      if connInbox != [] {
        connectionEvents := connInbox[0];
        connInbox := connInbox[1..];
      }
    }

    /** The callback of `get_msg_events`: `response` is the fetched body, already
        decoded, or the reason fetching or decoding failed. A failure sends nothing. */
    method GetMsgEvents(response: Result<seq<ViewerEvent>, string>)
      modifies this
      ensures response.Err? ==> msgInbox == old(msgInbox)
      ensures response.Ok? ==> |msgInbox| == |old(msgInbox)| + 1 && msgInbox[..|old(msgInbox)|] == old(msgInbox)
      ensures response.Ok? ==>
                var batch := msgInbox[|old(msgInbox)|];
                var recs := Records(response.value);
                |batch| == |recs|
                && (forall i :: 0 <= i < |batch| ==> batch[i].id in recs && recs[batch[i].id] == batch[i])
                && (forall k :: k in recs ==> recs[k] in batch)
      ensures connInbox == old(connInbox) && msgEvents == old(msgEvents) && connectionEvents == old(connectionEvents)
    {
      if response.Ok? {
        var m := Collect(response.value);
        RecordsKeyedById(response.value);
        var batch := Values(m);
        msgInbox := msgInbox + [batch];
      }
    }

    /** The callback of `get_conn_events`: a decoded list is sent as it is. */
    method GetConnEvents(response: Result<seq<ConnEventData>, string>)
      modifies this
      ensures connInbox == if response.Ok? then old(connInbox) + [response.value] else old(connInbox)
      ensures msgInbox == old(msgInbox) && msgEvents == old(msgEvents) && connectionEvents == old(connectionEvents)
    {
      if response.Ok? {
        connInbox := connInbox + [response.value];
      }
    }
  }
}
