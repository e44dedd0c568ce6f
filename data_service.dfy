/** The bridge's local data server keeps two event lists, connection events and
    message events, which every served connection reads; an HTTP request is
    answered by looking its path up in a fixed table of three routes. */
module DataService {
  import opened Ints

  /** Milliseconds since the Unix epoch. */
  type EpochTimeMs = nat

  datatype ConnectionEvent = ConnectionEvent(utcTime: EpochTimeMs, connected: bool)

  datatype DataEvent =
    | Connection(conn: ConnectionEvent)
    | NewMsg(id: u32, utcTime: EpochTimeMs)
    | PubMsg(id: u32, utcTime: EpochTimeMs)
    | AckMsg(id: u32, utcTime: EpochTimeMs, success: bool)

  /** The two lists every clone of a service shares. */
  datatype Lists = Lists(connections: seq<ConnectionEvent>, msgs: seq<DataEvent>)

  /** `handle_event`: a connection event goes to `connections`, every message event
      to `msgs`. */
  function Handling(l: Lists, ev: DataEvent): Lists {
    match ev
    case Connection(c) => l.(connections := l.connections + [c])
    case _ => l.(msgs := l.msgs + [ev])
  }

  function HandleAll(l: Lists, evs: seq<DataEvent>): Lists
    decreases |evs|
  {
    if |evs| == 0 then l else HandleAll(Handling(l, evs[0]), evs[1..])
  }

  /** Reference definitions: the connection events of a stream, and its message events. */
  function ConnectionsOf(evs: seq<DataEvent>): (r: seq<ConnectionEvent>)
    ensures |r| <= |evs|
    decreases |evs|
  {
    if |evs| == 0 then []
    else (if evs[0].Connection? then [evs[0].conn] else []) + ConnectionsOf(evs[1..])
  }

  function MsgsOf(evs: seq<DataEvent>): (r: seq<DataEvent>)
    ensures |r| <= |evs|
    ensures forall i :: 0 <= i < |r| ==> !r[i].Connection?
    decreases |evs|
  {
    if |evs| == 0 then []
    else (if evs[0].Connection? then [] else [evs[0]]) + MsgsOf(evs[1..])
  }

  /** One event lands in exactly one list, at its end, and the other list is untouched. */
  lemma HandlingRoutes(l: Lists, ev: DataEvent)
    ensures ev.Connection? ==> Handling(l, ev) == Lists(l.connections + [ev.conn], l.msgs)
    ensures !ev.Connection? ==> Handling(l, ev) == Lists(l.connections, l.msgs + [ev])
  {
  }

  /** Handling a stream of events splits it in arrival order: the lists grow by the
      stream's connection events and by its message events. */
  lemma {:induction false} HandleAllSplits(l: Lists, evs: seq<DataEvent>)
    ensures HandleAll(l, evs).connections == l.connections + ConnectionsOf(evs)
    ensures HandleAll(l, evs).msgs == l.msgs + MsgsOf(evs)
    decreases |evs|
  {
    if |evs| > 0 {
      HandleAllSplits(Handling(l, evs[0]), evs[1..]);
    }
  }

  /** Handling a stream and then one more event is handling the longer stream. */
  lemma {:induction false} HandleAllThenOne(l: Lists, evs: seq<DataEvent>, ev: DataEvent)
    ensures HandleAll(l, evs + [ev]) == Handling(HandleAll(l, evs), ev)
    decreases |evs|
  {
    if |evs| == 0 {
      assert evs + [ev] == [ev];
    } else {
      assert (evs + [ev])[1..] == evs[1..] + [ev];
      HandleAllThenOne(Handling(l, evs[0]), evs[1..], ev);
    }
  }

  /** Every event is kept: the two lists together gain exactly as many events as arrived. */
  lemma {:induction false} NothingLost(evs: seq<DataEvent>)
    ensures |ConnectionsOf(evs)| + |MsgsOf(evs)| == |evs|
    decreases |evs|
  {
    if |evs| > 0 {
      NothingLost(evs[1..]);
    }
  }

  // ---------------------------------------------------------------------------
  // Routes

  const HEALTH_PATH: string := "/health"
  const CONNECTIONS_PATH: string := "/connection_events"
  const MSGS_PATH: string := "/msg_events"

  /** The paths of the route table. */
  const PATHS: set<string> := {HEALTH_PATH, CONNECTIONS_PATH, MSGS_PATH}

  const HEALTH_BODY: string := "Alive!"
  const NOT_FOUND_BODY: string := "oh no! not found"

  /** What a request is answered with; the two list answers carry the list that
      is serialised (the JSON encoding is not modelled). */
  datatype Response =
    | Text(body: string)
    | ConnectionEvents(conns: seq<ConnectionEvent>)
    | MsgEvents(events: seq<DataEvent>)

  /** `call`: the callback registered for the path, or the not-found text. */
  function Route(path: string, l: Lists): (r: Response)
    ensures r == Text(NOT_FOUND_BODY) <==> path !in PATHS
    ensures r.ConnectionEvents? ==> r.conns == l.connections
    ensures r.MsgEvents? ==> r.events == l.msgs
  {
    if path == HEALTH_PATH then Text(HEALTH_BODY)
    else if path == CONNECTIONS_PATH then ConnectionEvents(l.connections)
    else if path == MSGS_PATH then MsgEvents(l.msgs)
    else Text(NOT_FOUND_BODY)
  }

  /** The three paths name three different answers. */
  lemma RoutesDistinct(l: Lists)
    ensures Route(HEALTH_PATH, l) == Text(HEALTH_BODY)
    ensures Route(CONNECTIONS_PATH, l).ConnectionEvents?
    ensures Route(MSGS_PATH, l).MsgEvents?
  {
  }

  /** An event handled by the server shows up, last, in what the next request for
      its list returns. */
  lemma HandledEventIsServed(l: Lists, ev: DataEvent)
    ensures ev.Connection? ==> Route(CONNECTIONS_PATH, Handling(l, ev)) == ConnectionEvents(l.connections + [ev.conn])
    ensures !ev.Connection? ==> Route(MSGS_PATH, Handling(l, ev)) == MsgEvents(l.msgs + [ev])
  {
  }

  // ---------------------------------------------------------------------------
  // The service and its shared lists

  /** The `Arc<Mutex<Vec<..>>>` pair behind every clone of a service. */
  class EventStore {
    var connections: seq<ConnectionEvent>
    var msgs: seq<DataEvent>

    function State(): Lists
      reads this
    {
      Lists(connections, msgs)
    }

    constructor()
      ensures State() == Lists([], [])
    {
      connections, msgs := [], [];
    }
  }

  class Service {
    const store: EventStore

    /** `DataService::new`: empty lists. */
    constructor()
      ensures fresh(store) && store.State() == Lists([], [])
    {
      store := new EventStore();
    }

    constructor Sharing(s: EventStore)
      ensures store == s
    {
      store := s;
    }

    /** `clone`: a new service over the same lists. */
    method Clone() returns (c: Service)
      ensures fresh(c) && c.store == store
    {
      c := new Service.Sharing(store);
    }

    method HandleEvent(ev: DataEvent)
      modifies store
      ensures store.State() == Handling(old(store.State()), ev)
    {
      match ev
      case Connection(c) => store.connections := store.connections + [c];
      case _ => store.msgs := store.msgs + [ev];
    }

    method Call(path: string) returns (r: Response)
      ensures r == Route(path, store.State())
    {
      if path == HEALTH_PATH {
        r := Text(HEALTH_BODY);
      } else if path == CONNECTIONS_PATH {
        r := ConnectionEvents(store.connections);
      } else if path == MSGS_PATH {
        r := MsgEvents(store.msgs);
      } else {
        r := Text(NOT_FOUND_BODY);
      }
    }
  }

  /** A connection served by a clone taken before an event was handled still
      answers with the list that includes the event. */
  method CloneSeesLaterEvents(server: Service, id: u32, t: EpochTimeMs) returns (served: Response)
    modifies server.store
    ensures served == MsgEvents(old(server.store.msgs) + [PubMsg(id, t)])
  {
    var conn := server.Clone();
    server.HandleEvent(PubMsg(id, t));
    served := conn.Call(MSGS_PATH);
  }
}
