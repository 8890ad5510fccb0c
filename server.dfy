/** The state shared by the display and the web interface, and the web
    interface's record serialisation and scan trigger. Each `SharedState`
    method is one step taken under the state's lock; the lock itself and the
    threads that call these methods are not modelled. */
module Server {
  import opened Wrappers
  import opened Values
  import Scanner

  class SharedState {
    var miners: seq<Record>
    var lastScan: Option<string>
    var scanning: bool
    var scanRequested: bool

    /** A fresh state: no records, no scan yet, idle, nothing pending. */
    constructor ()
      ensures miners == [] && lastScan == None && !scanning && !scanRequested
    {
      miners := [];
      lastScan := None;
      scanning := false;
      scanRequested := false;
    }

    /** `get_snapshot`: a copy of the records, the last-scan time and the
        scanning flag; the state is left as it was. */
    method GetSnapshot() returns (records: seq<Record>, when: Option<string>, busy: bool)
      ensures records == miners && when == lastScan && busy == scanning
    {
      records, when, busy := miners, lastScan, scanning;
    }

    method SetMiners(records: seq<Record>)
      modifies this`miners
      ensures miners == records
      ensures lastScan == old(lastScan) && scanning == old(scanning) && scanRequested == old(scanRequested)
    {
      miners := records;
    }

    method SetLastScan(when: Option<string>)
      modifies this`lastScan
      ensures lastScan == when
      ensures miners == old(miners) && scanning == old(scanning) && scanRequested == old(scanRequested)
    {
      lastScan := when;
    }

    method SetScanning(busy: bool)
      modifies this`scanning
      ensures scanning == busy
      ensures miners == old(miners) && lastScan == old(lastScan) && scanRequested == old(scanRequested)
    {
      scanning := busy;
    }

    /** `request_scan`: rejected, changing nothing, while a scan runs;
        otherwise the single pending flag is set (a second request while one
        is pending leaves one pending request, not two). */
    method RequestScan() returns (accepted: bool)
      modifies this`scanRequested
      ensures accepted == !scanning
      ensures accepted ==> scanRequested
      ensures !accepted ==> scanRequested == old(scanRequested)
      ensures miners == old(miners) && lastScan == old(lastScan) && scanning == old(scanning)
    {
      if scanning {
        return false;
      }
      scanRequested := true;
      return true;
    }

    /** `consume_scan_request`: reports whether a request was pending and
        leaves none pending. */
    method ConsumeScanRequest() returns (pending: bool)
      modifies this`scanRequested
      ensures pending == old(scanRequested) && !scanRequested
      ensures miners == old(miners) && lastScan == old(lastScan) && scanning == old(scanning)
    {
      if scanRequested {
        scanRequested := false;
        return true;
      }
      return false;
    }

    method ClearScanRequest()
      modifies this`scanRequested
      ensures !scanRequested
      ensures miners == old(miners) && lastScan == old(lastScan) && scanning == old(scanning)
    {
      scanRequested := false;
    }
  }

  /** Two requests on an idle state are both accepted yet owe one scan: the
      first consume reports it, the second finds nothing. */
  method RequestsCoalesce(state: SharedState) returns (first: bool, second: bool, consumed: bool, consumedAgain: bool)
    requires !state.scanning
    modifies state
    ensures first && second
    ensures consumed && !consumedAgain
    ensures !state.scanRequested && state.miners == old(state.miners) && state.lastScan == old(state.lastScan)
  {
    first := state.RequestScan();
    second := state.RequestScan();
    consumed := state.ConsumeScanRequest();
    consumedAgain := state.ConsumeScanRequest();
  }

  /** While a scan runs a request is rejected and adds nothing: what is
      pending afterwards is what was pending before. */
  method RequestWhileScanning(state: SharedState) returns (accepted: bool, pending: bool)
    requires state.scanning
    modifies state
    ensures !accepted
    ensures pending == old(state.scanRequested)
  {
    accepted := state.RequestScan();
    pending := state.ConsumeScanRequest();
  }

  // ---------------------------------------------------------------- web

  /** One worker entry `(u, ur)` rewritten as `{"url": u, "user": ur}`. */
  function UrlUser(u: Value, ur: Value): Value {
    VDict(map["url" := u, "user" := ur])
  }

  /** `[{"url": u, "user": ur} for u, ur in workers]`, or `None` where an entry
      does not unpack into two values (Python raises there). */
  function SerializeWorkers(workers: seq<Value>): (r: Option<seq<Value>>)
    ensures r.Some? <==> forall i :: 0 <= i < |workers| ==> Unpack2(workers[i]).Some?
    ensures r.Some? ==> |r.value| == |workers|
    ensures r.Some? ==> forall i :: 0 <= i < |workers| ==>
              r.value[i] == UrlUser(Unpack2(workers[i]).value.0, Unpack2(workers[i]).value.1)
  {
    if workers == [] then Some([])
    else
      match Unpack2(workers[0])
      case None => None
      case Some(pair) =>
        match SerializeWorkers(workers[1..])
        case None => None
        case Some(rest) => Some([UrlUser(pair.0, pair.1)] + rest)
  }

  /** `_serialize`: a copy of the record whose `workers` entry is rewritten into
      `{url, user}` records; a missing or falsy `workers` becomes `[]`. `None`
      where Python would raise while iterating or unpacking. */
  function Serialize(m: Record): (r: Option<Record>)
    ensures r.Some? ==> r.value.Keys == m.Keys + {"workers"}
    ensures r.Some? ==> forall k :: k in m && k != "workers" ==> r.value[k] == m[k]
    ensures !Truthy(Get(m, "workers", VNone)) ==> r == Some(m["workers" := VList([])])
    ensures r.Some? ==> var entries := Elements(Or(Get(m, "workers", VNone), VList([])));
              && entries.Some?
              && r.value["workers"].VList?
              && |r.value["workers"].items| == |entries.value|
    ensures var entries := Elements(Or(Get(m, "workers", VNone), VList([])));
              && (r.Some? <==> entries.Some? && SerializeWorkers(entries.value).Some?)
              && (r.Some? ==> r.value["workers"] == VList(SerializeWorkers(entries.value).value))
  {
    var workers := Or(Get(m, "workers", VNone), VList([]));
    match Elements(workers)
    case None => None
    case Some(items) =>
      match SerializeWorkers(items)
      case None => None
      case Some(records) => Some(m["workers" := VList(records)])
  }

  /** The `{url, user}` records for a list of `(url, user)` string pairs. */
  function UrlUsers(workers: seq<(string, string)>): seq<Value> {
    seq(|workers|, i requires 0 <= i < |workers| => UrlUser(VStr(workers[i].0), VStr(workers[i].1)))
  }

  /** A record whose workers are `(url, user)` string pairs serialises, with
      those pairs rewritten in order and every other entry kept. */
  lemma SerializePairs(m: Record, workers: seq<(string, string)>)
    requires "workers" in m && m["workers"] == VList(Scanner.WorkerTuples(workers))
    ensures Serialize(m) == Some(m["workers" := VList(UrlUsers(workers))])
  {
    var tuples := Scanner.WorkerTuples(workers);
    assert forall i :: 0 <= i < |tuples| ==> Unpack2(tuples[i]) == Some((VStr(workers[i].0), VStr(workers[i].1)));
    var out := SerializeWorkers(tuples);
    assert out.Some?;
    assert out.value == UrlUsers(workers);
  }

  /** A record built by the normaliser always serialises, keeps its eighteen
      keys, and its workers come out as `{url, user}` records of the same
      length and order. */
  lemma SerializeNormalised(data: Scanner.MinerData, workers: seq<(string, string)>)
    ensures var m := Scanner.RecordOf(data, workers);
      && Serialize(m) == Some(m["workers" := VList(UrlUsers(workers))])
      && Serialize(m).value.Keys == Scanner.RECORD_KEYS
  {
    Scanner.RecordKeys(data, workers);
    Scanner.RecordLists(data, workers);
    SerializePairs(Scanner.RecordOf(data, workers), workers);
  }

  /** `[_serialize(m) for m in miners]`, `None` when any record fails. */
  function SerializeAll(miners: seq<Record>): (r: Option<seq<Record>>)
    ensures r.Some? <==> forall i :: 0 <= i < |miners| ==> Serialize(miners[i]).Some?
    ensures r.Some? ==> |r.value| == |miners|
    ensures r.Some? ==> forall i :: 0 <= i < |miners| ==> r.value[i] == Serialize(miners[i]).value
  {
    if miners == [] then Some([])
    else
      match Serialize(miners[0])
      case None => None
      case Some(first) =>
        match SerializeAll(miners[1..])
        case None => None
        case Some(rest) => Some([first] + rest)
  }

  /** The reply of the scan-trigger endpoint. */
  datatype Response = Redirect(code: int, location: string)

  /** `trigger_scan`: asks for a scan and answers with the same redirect to the
      index page whether the request was accepted or rejected. */
  method TriggerScan(state: SharedState) returns (response: Response)
    modifies state`scanRequested
    ensures response == Redirect(302, "/")
    ensures !old(state.scanning) ==> state.scanRequested
    ensures old(state.scanning) ==> state.scanRequested == old(state.scanRequested)
  {
    var accepted := state.RequestScan();
    if accepted {
      return Redirect(302, "/");
    }
    return Redirect(302, "/");
  }
}
