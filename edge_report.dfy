/** The edge report listener: a registry of edge machines keyed by machine id,
    each with the last static report (identity, address) and the last dynamic
    report (load, memory, temperature) received for it, behind a read-write
    lock; and the mapping of middleware errors to HTTP answers. */
module EdgeReport {
  import opened Ints

  /** The bit pattern of an `f32`; the listener only stores these values. */
  type F32Bits = u32

  datatype StaticData = StaticData(machineId: string, processorSerial: string, systemName: string, localIp: string)

  datatype DynamicData = DynamicData(machineId: string, processorUse: F32Bits, memoryTotal: u64,
                                     memoryAvailable: u64, temperature: F32Bits)

  datatype EdgeData = EdgeData(staticData: StaticData, dynamicData: DynamicData)

  /** The `Default` values: empty strings, zero numbers (0.0 is the all-zero pattern). */
  const DEFAULT_STATIC: StaticData := StaticData("", "", "", "")
  const DEFAULT_DYNAMIC: DynamicData := DynamicData("", 0, 0, 0, 0)
  const DEFAULT_EDGE: EdgeData := EdgeData(DEFAULT_STATIC, DEFAULT_DYNAMIC)

  type Edges = map<string, EdgeData>

  /** `edge_report_static` on an unpoisoned lock: the known entry's static part is
      replaced, or a new entry is made with default dynamic data. */
  function StaticUpsert(edges: Edges, p: StaticData): Edges {
    if p.machineId in edges then edges[p.machineId := edges[p.machineId].(staticData := p)]
    else edges[p.machineId := EdgeData(p, DEFAULT_DYNAMIC)]
  }

  /** `edge_report_dynamic` on an unpoisoned lock: the known entry's dynamic part is
      replaced; an unknown machine gets a default entry and the report is dropped. */
  function DynamicUpsert(edges: Edges, p: DynamicData): Edges {
    if p.machineId in edges then edges[p.machineId := edges[p.machineId].(dynamicData := p)]
    else edges[p.machineId := DEFAULT_EDGE]
  }

  /** A static report leaves every other machine as it was, and afterwards its own
      machine holds the report and the dynamic data it had (default if new). */
  lemma StaticUpsertEffect(edges: Edges, p: StaticData)
    ensures StaticUpsert(edges, p).Keys == edges.Keys + {p.machineId}
    ensures StaticUpsert(edges, p)[p.machineId].staticData == p
    ensures StaticUpsert(edges, p)[p.machineId].dynamicData
            == (if p.machineId in edges then edges[p.machineId].dynamicData else DEFAULT_DYNAMIC)
    ensures forall k :: k in edges && k != p.machineId ==> StaticUpsert(edges, p)[k] == edges[k]
  {
  }

  /** A dynamic report leaves every other machine as it was; a known machine keeps
      its static data and gets the report, an unknown one gets the default entry. */
  lemma DynamicUpsertEffect(edges: Edges, p: DynamicData)
    ensures DynamicUpsert(edges, p).Keys == edges.Keys + {p.machineId}
    ensures p.machineId in edges ==>
              DynamicUpsert(edges, p)[p.machineId] == EdgeData(edges[p.machineId].staticData, p)
    ensures p.machineId !in edges ==> DynamicUpsert(edges, p)[p.machineId] == DEFAULT_EDGE
    ensures forall k :: k in edges && k != p.machineId ==> DynamicUpsert(edges, p)[k] == edges[k]
  {
  }

  /** Repeating a report changes nothing more. */
  lemma ReportsIdempotent(edges: Edges, s: StaticData, d: DynamicData)
    ensures StaticUpsert(StaticUpsert(edges, s), s) == StaticUpsert(edges, s)
    ensures d.machineId in edges ==> DynamicUpsert(DynamicUpsert(edges, d), d) == DynamicUpsert(edges, d)
  {
  }

  /** Reports about different machines can be handled in either order. */
  lemma ReportsCommute(edges: Edges, s: StaticData, d: DynamicData)
    requires s.machineId != d.machineId
    ensures StaticUpsert(DynamicUpsert(edges, d), s) == DynamicUpsert(StaticUpsert(edges, s), d)
  {
  }

  /** The first dynamic report of an unknown machine is lost even once its static
      report follows: the entry then holds the static report and default dynamic data. */
  lemma DynamicBeforeStaticIsLost(edges: Edges, s: StaticData, d: DynamicData)
    requires s.machineId == d.machineId && d.machineId !in edges
    ensures StaticUpsert(DynamicUpsert(edges, d), s)[s.machineId] == EdgeData(s, DEFAULT_DYNAMIC)
  {
  }

  /** The shared state behind the lock. */
  class AppState {
    var edges: Edges
    /** Whether a writer panicked while holding the lock; every later write fails. */
    var poisoned: bool

    constructor()
      ensures edges == map[] && !poisoned
    {
      edges, poisoned := map[], false;
    }

    method EdgeReportStatic(p: StaticData)
      modifies this
      ensures poisoned == old(poisoned)
      ensures edges == if poisoned then old(edges) else StaticUpsert(old(edges), p)
    {
      if !poisoned {
        if p.machineId in edges {
          edges := edges[p.machineId := edges[p.machineId].(staticData := p)];
        } else {
          edges := edges[p.machineId := EdgeData(p, DEFAULT_DYNAMIC)];
        }
      }
    }

    method EdgeReportDynamic(p: DynamicData)
      modifies this
      ensures poisoned == old(poisoned)
      ensures edges == if poisoned then old(edges) else DynamicUpsert(old(edges), p)
    {
      if !poisoned {
        if p.machineId in edges {
          edges := edges[p.machineId := edges[p.machineId].(dynamicData := p)];
        } else {
          edges := edges[p.machineId := DEFAULT_EDGE];
        }
      }
    }
  }

  // ---------------------------------------------------------------------------
  // Middleware errors

  datatype MiddlewareError = Elapsed | Overloaded | Other(text: string)

  const REQUEST_TIMEOUT: nat := 408
  const SERVICE_UNAVAILABLE: nat := 503
  const INTERNAL_SERVER_ERROR: nat := 500

  const UNHANDLED_PREFIX: string := "Unhandled internal error: "

  /** `handle_error`: the status code and body for an error of the middleware stack. */
  function HandleError(e: MiddlewareError): (r: (nat, string))
    ensures r.0 == REQUEST_TIMEOUT <==> e.Elapsed?
    ensures r.0 == SERVICE_UNAVAILABLE <==> e.Overloaded?
    ensures r.0 == INTERNAL_SERVER_ERROR <==> e.Other?
    ensures e.Other? ==> r.1 == UNHANDLED_PREFIX + e.text
  {
    match e
    case Elapsed => (REQUEST_TIMEOUT, "request timed out")
    case Overloaded => (SERVICE_UNAVAILABLE, "service is overloaded, try again later")
    case Other(t) => (INTERNAL_SERVER_ERROR, UNHANDLED_PREFIX + t)
  }

  /** Distinct unhandled errors give distinct bodies. */
  lemma HandleErrorKeepsDetail(a: string, b: string)
    requires a != b
    ensures HandleError(Other(a)).1 != HandleError(Other(b)).1
  {
    assert HandleError(Other(a)).1[|UNHANDLED_PREFIX|..] == a;
    assert HandleError(Other(b)).1[|UNHANDLED_PREFIX|..] == b;
  }
}
