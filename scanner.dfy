/** The scanner: pool extraction, the normaliser that turns one device's
    telemetry into a flat record with every key present, and the loop that
    keeps the records of the devices that answered. The network scan itself
    is an input: one outcome per discovered device, in discovery order. */
module Scanner {
  import opened Wrappers
  import opened Values

  // ---------------------------------------------------------------- telemetry

  /** An attribute read with a default other than `None`: missing, or present
      with a value (which may itself be `VNone`). */
  datatype Attr = Absent | Present(value: Value)

  /** `getattr(obj, name, default)`. */
  function GetAttr(a: Attr, default: Value): Value {
    match a
    case Absent => default
    case Present(v) => v
  }

  /** One pool entry. An attribute that is missing or `None` is `VNone`. */
  datatype Pool = Pool(url: Value, stratum: Value, user: Value, username: Value)

  /** What `list(pools)` does with the pool-configuration object. */
  datatype Iteration = NotIterable | Yields(items: seq<Pool>) | IterationRaises

  /** The `pools` attribute of a device configuration: its truth value, its own
      `pools` and `pool_list` attributes (`None` when missing or `None`) and what
      iterating it gives. */
  datatype PoolConfig = PoolConfig(
    truthy: bool,
    pools: Option<seq<Pool>>,
    poolList: Option<seq<Pool>>,
    iteration: Iteration)

  /** A device configuration: its truth value and its `pools` attribute. */
  datatype MinerConfig = MinerConfig(truthy: bool, pools: Option<PoolConfig>)

  datatype Board = Board(hashrate: Value, temperature: Value, chips: Value)

  datatype Fan = Fan(speed: Value)

  /** One device's telemetry object. Scalar attributes read with default `None`
      are `VNone` when missing; `ip` and `is_mining` have other defaults and keep
      "missing" apart; a list attribute is `None` when missing or `None`. */
  datatype MinerData = MinerData(
    ip: Attr,
    hostname: Value,
    model: Value,
    make: Value,
    firmware: Value,
    hashrate: Value,
    expectedHashrate: Value,
    wattage: Value,
    efficiency: Value,
    temperatureAvg: Value,
    envTemp: Value,
    uptime: Value,
    isMining: Attr,
    faultLight: Value,
    hashboards: Option<seq<Board>>,
    fans: Option<seq<Fan>>,
    errors: Option<seq<Value>>,
    config: Option<MinerConfig>)

  /** `getattr(obj, name, []) or []` for a list attribute. */
  function OrEmpty<T>(o: Option<seq<T>>): seq<T> {
    o.GetOr([])
  }

  // ---------------------------------------------------------------- pools

  /** Stand-in for `bytes.decode("utf-8", errors="replace")`: an ASCII byte is
      its character and any other byte is the replacement character. Its
      contract holds of the real decoder too: empty bytes give the empty
      string, and other bytes give at least one and at most as many
      characters as bytes. */
  function DecodeUtf8(bs: seq<bv8>): (s: string)
    ensures bs == [] <==> s == ""
    ensures 0 < |bs| ==> 0 < |s| <= |bs|
  {
    seq(|bs|, k requires 0 <= k < |bs| => if bs[k] < 0x80 then bs[k] as char else '�')
  }

  /** What a chosen pool field becomes once bytes are decoded and `str()` applied. */
  function FieldText(v: Value): string {
    if v.VBytes? then DecodeUtf8(v.bytes)
    else if Truthy(v) then Show(v)
    else ""
  }

  /** `getattr(pool, first, None) or getattr(pool, second, None) or ""`, decoded
      and turned into a string. */
  function PoolField(first: Value, second: Value): (r: string)
    ensures Truthy(first) ==> r == FieldText(first)
    ensures !Truthy(first) && Truthy(second) ==> r == FieldText(second)
    ensures !Truthy(first) && !Truthy(second) ==> r == ""
  {
    var v := Or(Or(first, second), VStr(""));
    var decoded := if v.VBytes? then VStr(DecodeUtf8(v.bytes)) else v;
    if Truthy(decoded) then Show(decoded) else ""
  }

  /** The `(url, user)` pair of one pool. */
  function PoolEntry(p: Pool): (string, string) {
    (PoolField(p.url, p.stratum), PoolField(p.user, p.username))
  }

  /** The pool list `_extract_workers` walks: `pools.pools`, else
      `pools.pool_list`, else the pools object iterated, else nothing; and
      nothing at all when the configuration or its pools are missing or falsy. */
  function PoolsOf(data: MinerData): (pools: seq<Pool>)
    ensures data.config.None? || !data.config.value.truthy ==> pools == []
    ensures data.config.Some? && (data.config.value.pools.None? || !data.config.value.pools.value.truthy) ==>
              pools == []
  {
    match data.config
    case None => []
    case Some(config) =>
      if !config.truthy then []
      else match config.pools
        case None => []
        case Some(pc) =>
          if !pc.truthy then []
          else if pc.pools.Some? then pc.pools.value
          else if pc.poolList.Some? then pc.poolList.value
          else match pc.iteration
            case Yields(items) => items
            case NotIterable => []
            case IterationRaises => []
  }

  /** The workers `_extract_workers` returns: one `(url, user)` pair per pool. */
  function WorkersOf(data: MinerData): (workers: seq<(string, string)>)
    ensures |workers| == |PoolsOf(data)|
    ensures forall i :: 0 <= i < |workers| ==> workers[i] == PoolEntry(PoolsOf(data)[i])
  {
    var pools := PoolsOf(data);
    seq(|pools|, i requires 0 <= i < |pools| => PoolEntry(pools[i]))
  }

  /** `_extract_workers`. */
  method ExtractWorkers(data: MinerData) returns (workers: seq<(string, string)>)
    ensures workers == WorkersOf(data)
  {
    workers := [];
    if data.config.None? || !data.config.value.truthy {
      return;
    }
    var config := data.config.value;
    if config.pools.None? || !config.pools.value.truthy {
      return;
    }
    var pools := config.pools.value;
    var poolList := pools.pools;
    if poolList.None? {
      poolList := pools.poolList;
    }
    if poolList.None? {
      poolList := match pools.iteration
        case Yields(items) => Some(items)
        case NotIterable => Some([])
        case IterationRaises => Some([]);
    }
    var list := poolList.value;
    var i := 0;
    while i < |list|
      invariant 0 <= i <= |list|
      invariant list == PoolsOf(data)
      invariant |workers| == i
      invariant forall k :: 0 <= k < i ==> workers[k] == PoolEntry(list[k])
    {
      workers := workers + [PoolEntry(list[i])];
      i := i + 1;
    }
  }

  /** A pool's `url` is its `url` when that is a non-empty string, else its
      `stratum` when that is a non-empty string, else ""; likewise `user` from
      `user` and `username`. Non-empty bytes give a non-empty text no longer
      than the bytes. */
  lemma PoolEntryChoice(p: Pool)
    ensures p.url.VStr? && p.url.s != "" ==> PoolEntry(p).0 == p.url.s
    ensures !Truthy(p.url) && p.stratum.VStr? ==> PoolEntry(p).0 == p.stratum.s
    ensures p.url.VBytes? && p.url.bytes != [] ==> 0 < |PoolEntry(p).0| <= |p.url.bytes|
    ensures p.user.VBytes? && p.user.bytes != [] ==> 0 < |PoolEntry(p).1| <= |p.user.bytes|
    ensures !Truthy(p.url) && !Truthy(p.stratum) ==> PoolEntry(p).0 == ""
    ensures p.user.VStr? && p.user.s != "" ==> PoolEntry(p).1 == p.user.s
    ensures !Truthy(p.user) && p.username.VStr? ==> PoolEntry(p).1 == p.username.s
    ensures !Truthy(p.user) && !Truthy(p.username) ==> PoolEntry(p).1 == ""
  {
  }

  /** The first candidate pool list that is not `None` wins even when it is
      empty: an empty `pools.pools` gives no workers although `pool_list` may
      hold pools. */
  lemma PoolListFallback(data: MinerData)
    requires data.config.Some? && data.config.value.truthy
    requires data.config.value.pools.Some? && data.config.value.pools.value.truthy
    ensures var pc := data.config.value.pools.value;
      && (pc.pools.Some? ==> PoolsOf(data) == pc.pools.value)
      && (pc.pools.None? && pc.poolList.Some? ==> PoolsOf(data) == pc.poolList.value)
      && (pc.pools.None? && pc.poolList.None? && pc.iteration.Yields? ==> PoolsOf(data) == pc.iteration.items)
      && (pc.pools.None? && pc.poolList.None? && !pc.iteration.Yields? ==> PoolsOf(data) == [])
      && (pc.pools == Some([]) ==> WorkersOf(data) == [])
  {
  }

  /** Pools `[a, b, c]` give workers in the same order, one pair each. */
  lemma PoolOrderPreserved(data: MinerData, a: Pool, b: Pool, c: Pool)
    requires PoolsOf(data) == [a, b, c]
    ensures WorkersOf(data) == [PoolEntry(a), PoolEntry(b), PoolEntry(c)]
    ensures Normalised(data)["workers"] ==
              VList([StrPair(PoolEntry(a).0, PoolEntry(a).1), StrPair(PoolEntry(b).0, PoolEntry(b).1),
                     StrPair(PoolEntry(c).0, PoolEntry(c).1)])
  {
    RecordLists(data, WorkersOf(data));
  }

  // ---------------------------------------------------------------- records

  /** `_fmt`: `None` becomes the empty string, anything else its `str()`. */
  function Fmt(v: Value): (r: string)
    ensures v.VNone? ==> r == ""
    ensures !v.VNone? ==> r == Show(v)
  {
    if v.VNone? then "" else Show(v)
  }

  const RECORD_KEYS: set<string> := {
    "ip", "hostname", "model", "make", "firmware", "hashrate", "expected_hashrate",
    "wattage", "efficiency", "temperature_avg", "env_temp", "uptime", "is_mining",
    "fault_light", "hashboards", "fans", "workers", "errors" }

  function BoardInfo(b: Board): Value {
    VDict(map["hashrate" := VStr(Fmt(b.hashrate)), "temp" := VStr(Fmt(b.temperature)),
              "chips" := VStr(Fmt(b.chips))])
  }

  function FanInfo(f: Fan): Value {
    VDict(map["speed" := VStr(Fmt(f.speed))])
  }

  function ErrorText(e: Value): Value {
    VStr(Show(e))
  }

  function BoardInfos(boards: seq<Board>): (r: seq<Value>) {
    seq(|boards|, i requires 0 <= i < |boards| => BoardInfo(boards[i]))
  }

  function FanInfos(fans: seq<Fan>): (r: seq<Value>) {
    seq(|fans|, i requires 0 <= i < |fans| => FanInfo(fans[i]))
  }

  function ErrorTexts(errors: seq<Value>): (r: seq<Value>) {
    seq(|errors|, i requires 0 <= i < |errors| => ErrorText(errors[i]))
  }

  function WorkerTuples(workers: seq<(string, string)>): (r: seq<Value>) {
    seq(|workers|, i requires 0 <= i < |workers| => StrPair(workers[i].0, workers[i].1))
  }

  /** The flat record `_miner_data_to_dict` builds from `data` and its workers. */
  function RecordOf(data: MinerData, workers: seq<(string, string)>): Record
  {
    map[
      "ip" := GetAttr(data.ip, VStr("")),
      "hostname" := VStr(Fmt(data.hostname)),
      "model" := VStr(Fmt(data.model)),
      "make" := VStr(Fmt(data.make)),
      "firmware" := VStr(Fmt(data.firmware)),
      "hashrate" := VStr(Fmt(data.hashrate)),
      "expected_hashrate" := VStr(Fmt(data.expectedHashrate)),
      "wattage" := VStr(Fmt(data.wattage)),
      "efficiency" := VStr(Fmt(data.efficiency)),
      "temperature_avg" := VStr(Fmt(data.temperatureAvg)),
      "env_temp" := VStr(Fmt(data.envTemp)),
      "uptime" := data.uptime,
      "is_mining" := GetAttr(data.isMining, VBool(true)),
      "fault_light" := data.faultLight,
      "hashboards" := VList(BoardInfos(OrEmpty(data.hashboards))),
      "fans" := VList(FanInfos(OrEmpty(data.fans))),
      "workers" := VList(WorkerTuples(workers)),
      "errors" := VList(ErrorTexts(OrEmpty(data.errors)))
    ]
  }

  /** Every record has exactly the eighteen keys, whatever the telemetry lacks. */
  lemma RecordKeys(data: MinerData, workers: seq<(string, string)>)
    ensures RecordOf(data, workers).Keys == RECORD_KEYS
  {
  }

  /** The identity fields hold `_fmt` of their attribute: a string, empty when
      the attribute is missing or `None`. */
  lemma RecordIdentityFields(data: MinerData, workers: seq<(string, string)>)
    ensures var r := RecordOf(data, workers);
      && r["hostname"] == VStr(Fmt(data.hostname))
      && r["model"] == VStr(Fmt(data.model))
      && r["make"] == VStr(Fmt(data.make))
      && r["firmware"] == VStr(Fmt(data.firmware))
  {
    var r := RecordOf(data, workers);
    assert r["hostname"] == VStr(Fmt(data.hostname));
    assert r["model"] == VStr(Fmt(data.model));
    assert r["make"] == VStr(Fmt(data.make));
  }

  /** The measurement fields hold `_fmt` of their attribute, in the same way. */
  lemma RecordMeasurementFields(data: MinerData, workers: seq<(string, string)>)
    ensures var r := RecordOf(data, workers);
      && r["hashrate"] == VStr(Fmt(data.hashrate))
      && r["expected_hashrate"] == VStr(Fmt(data.expectedHashrate))
      && r["wattage"] == VStr(Fmt(data.wattage))
      && r["efficiency"] == VStr(Fmt(data.efficiency))
      && r["temperature_avg"] == VStr(Fmt(data.temperatureAvg))
      && r["env_temp"] == VStr(Fmt(data.envTemp))
  {
    var r := RecordOf(data, workers);
    assert r["hashrate"] == VStr(Fmt(data.hashrate));
    assert r["expected_hashrate"] == VStr(Fmt(data.expectedHashrate));
    assert r["wattage"] == VStr(Fmt(data.wattage));
    assert r["efficiency"] == VStr(Fmt(data.efficiency));
    assert r["temperature_avg"] == VStr(Fmt(data.temperatureAvg));
  }

  /** `is_mining` is true by default only when the attribute is missing (a
      present `None` stays `None`); `ip`, `uptime` and `fault_light` pass through
      unformatted, with "" for a missing `ip` and `None` for the other two. */
  lemma RecordPassThrough(data: MinerData, workers: seq<(string, string)>)
    ensures var r := RecordOf(data, workers);
      && r["is_mining"] == (if data.isMining.Absent? then VBool(true) else data.isMining.value)
      && r["ip"] == (if data.ip.Absent? then VStr("") else data.ip.value)
      && r["uptime"] == data.uptime && r["fault_light"] == data.faultLight
  {
  }

  /** The hashboard, fan and error lists keep the source's length and order and
      are empty when the source list is missing, `None` or empty. */
  lemma RecordLists(data: MinerData, workers: seq<(string, string)>)
    ensures var r := RecordOf(data, workers);
      && r["hashboards"] == VList(BoardInfos(OrEmpty(data.hashboards)))
      && r["fans"] == VList(FanInfos(OrEmpty(data.fans)))
      && r["errors"] == VList(ErrorTexts(OrEmpty(data.errors)))
      && r["workers"] == VList(WorkerTuples(workers))
  {
  }

  /** `_miner_data_to_dict`. */
  method MinerDataToDict(data: MinerData, workers: seq<(string, string)>) returns (d: Record)
    ensures d == RecordOf(data, workers)
  {
    var boards := OrEmpty(data.hashboards);
    var hashboardsInfo: seq<Value> := [];
    var i := 0;
    while i < |boards|
      invariant 0 <= i <= |boards|
      invariant |hashboardsInfo| == i
      invariant forall k :: 0 <= k < i ==> hashboardsInfo[k] == BoardInfo(boards[k])
    {
      hashboardsInfo := hashboardsInfo + [BoardInfo(boards[i])];
      i := i + 1;
    }

    var fans := OrEmpty(data.fans);
    var fansInfo: seq<Value> := [];
    i := 0;
    while i < |fans|
      invariant 0 <= i <= |fans|
      invariant |fansInfo| == i
      invariant forall k :: 0 <= k < i ==> fansInfo[k] == FanInfo(fans[k])
    {
      fansInfo := fansInfo + [FanInfo(fans[i])];
      i := i + 1;
    }

    var errors := OrEmpty(data.errors);
    var errorsList: seq<Value> := [];
    i := 0;
    while i < |errors|
      invariant 0 <= i <= |errors|
      invariant |errorsList| == i
      invariant forall k :: 0 <= k < i ==> errorsList[k] == ErrorText(errors[k])
    {
      errorsList := errorsList + [ErrorText(errors[i])];
      i := i + 1;
    }

    d := map[
      "ip" := GetAttr(data.ip, VStr("")),
      "hostname" := VStr(Fmt(data.hostname)),
      "model" := VStr(Fmt(data.model)),
      "make" := VStr(Fmt(data.make)),
      "firmware" := VStr(Fmt(data.firmware)),
      "hashrate" := VStr(Fmt(data.hashrate)),
      "expected_hashrate" := VStr(Fmt(data.expectedHashrate)),
      "wattage" := VStr(Fmt(data.wattage)),
      "efficiency" := VStr(Fmt(data.efficiency)),
      "temperature_avg" := VStr(Fmt(data.temperatureAvg)),
      "env_temp" := VStr(Fmt(data.envTemp)),
      "uptime" := data.uptime,
      "is_mining" := GetAttr(data.isMining, VBool(true)),
      "fault_light" := data.faultLight,
      "hashboards" := VList(hashboardsInfo),
      "fans" := VList(fansInfo),
      "workers" := VList(WorkerTuples(workers)),
      "errors" := VList(errorsList)
    ];
    assert hashboardsInfo == BoardInfos(boards);
    assert fansInfo == FanInfos(fans);
    assert errorsList == ErrorTexts(errors);
  }

  /** The record of one device: its normalised telemetry with its workers. */
  function Normalised(data: MinerData): Record {
    RecordOf(data, WorkersOf(data))
  }

  /** Telemetry without a configuration gives a record with no workers, and
      its hashboards are kept one for one, in order. */
  lemma NoPoolsKeepsBoards(data: MinerData)
    requires data.config.None?
    ensures Normalised(data)["workers"] == VList([])
    ensures Normalised(data)["hashboards"].VList?
    ensures |Normalised(data)["hashboards"].items| == |OrEmpty(data.hashboards)|
    ensures forall i :: 0 <= i < |OrEmpty(data.hashboards)| ==>
              Normalised(data)["hashboards"].items[i] == BoardInfo(OrEmpty(data.hashboards)[i])
  {
    RecordLists(data, WorkersOf(data));
  }

  // ---------------------------------------------------------------- scan

  /** What the scan saw of one discovered device: nothing (`None` in the scan
      result), `get_data()` returning `None`, an exception inside the `try`
      (from `get_data()` or from normalising its telemetry), or telemetry. The
      model's normaliser is total, so a `Fetched` device never raises there;
      `FetchRaises` stands for every exception the `except` catches. */
  datatype DeviceOutcome = NoDevice | NoData | FetchRaises | Fetched(data: MinerData)

  /** The records of the devices that returned telemetry, in device order, each
      built from its telemetry by `normalise`. Which devices are kept does not
      depend on how a record is built, so the lemmas below hold for any
      `normalise`. */
  function Collect(devices: seq<DeviceOutcome>, normalise: MinerData -> Record): seq<Record> {
    if devices == [] then []
    else
      var rest := Collect(devices[1..], normalise);
      match devices[0]
      case Fetched(data) => [normalise(data)] + rest
      case _ => rest
  }

  /** What `scan_network` returns: the normalised record of every device that
      returned telemetry, in device order. */
  function ScanResults(devices: seq<DeviceOutcome>): seq<Record> {
    Collect(devices, Normalised)
  }

  /** The telemetry objects of the devices that returned some, in device order. */
  function FetchedData(devices: seq<DeviceOutcome>): seq<MinerData> {
    if devices == [] then []
    else if devices[0].Fetched? then [devices[0].data] + FetchedData(devices[1..])
    else FetchedData(devices[1..])
  }

  /** Collecting a concatenation of device lists gives the concatenation of their
      results: one failing device never removes another's record. */
  lemma {:induction false} CollectConcat(a: seq<DeviceOutcome>, b: seq<DeviceOutcome>, normalise: MinerData -> Record)
    ensures Collect(a + b, normalise) == Collect(a, normalise) + Collect(b, normalise)
  {
    if a == [] {
      assert a + b == b;
    } else {
      assert (a + b)[0] == a[0];
      assert (a + b)[1..] == a[1..] + b;
      CollectConcat(a[1..], b, normalise);
    }
  }

  /** The results are exactly the records of the devices that returned
      telemetry, in device order; so there are never more results than devices. */
  lemma {:induction false} CollectIsFetched(devices: seq<DeviceOutcome>, normalise: MinerData -> Record)
    ensures |Collect(devices, normalise)| == |FetchedData(devices)| <= |devices|
    ensures forall i :: 0 <= i < |Collect(devices, normalise)| ==>
              Collect(devices, normalise)[i] == normalise(FetchedData(devices)[i])
  {
    if devices != [] {
      CollectIsFetched(devices[1..], normalise);
    }
  }

  /** The scan's records are the normalised telemetry of the devices that
      returned some, in device order. */
  lemma ScanResultsAreFetched(devices: seq<DeviceOutcome>)
    ensures |ScanResults(devices)| == |FetchedData(devices)| <= |devices|
    ensures forall i :: 0 <= i < |ScanResults(devices)| ==>
              ScanResults(devices)[i] == Normalised(FetchedData(devices)[i])
  {
    CollectIsFetched(devices, Normalised);
  }

  /** A device that is absent, returns no data or raises contributes nothing,
      wherever it sits in the list. */
  lemma FailingDeviceIsDropped(before: seq<DeviceOutcome>, d: DeviceOutcome, after: seq<DeviceOutcome>,
                               normalise: MinerData -> Record)
    requires !d.Fetched?
    ensures Collect(before + [d] + after, normalise) == Collect(before, normalise) + Collect(after, normalise)
  {
    CollectConcat(before + [d], after, normalise);
    CollectConcat(before, [d], normalise);
  }

  /** With no device returning telemetry there are no records. */
  lemma {:induction false} NoTelemetryNoResults(devices: seq<DeviceOutcome>, normalise: MinerData -> Record)
    requires forall i :: 0 <= i < |devices| ==> !devices[i].Fetched?
    ensures Collect(devices, normalise) == []
  {
    if devices != [] {
      NoTelemetryNoResults(devices[1..], normalise);
    }
  }

  /** Two discovered devices, the first answering and the second raising: the
      scan yields exactly the first device's record. */
  lemma OneAnswersOneRaises(data: MinerData)
    ensures ScanResults([Fetched(data), FetchRaises]) == [Normalised(data)]
  {
    assert [Fetched(data), FetchRaises][1..] == [FetchRaises];
    assert [FetchRaises][1..] == [];
    assert Collect([FetchRaises], Normalised) == [];
  }

  /** The filtering loop of `scan_network`. */
  method ScanNetwork(devices: seq<DeviceOutcome>) returns (results: seq<Record>)
    ensures results == ScanResults(devices)
  {
    results := [];
    var i := 0;
    while i < |devices|
      invariant 0 <= i <= |devices|
      invariant results == ScanResults(devices[..i])
    {
      var device := devices[i];
      assert devices[..i + 1] == devices[..i] + [device];
      CollectConcat(devices[..i], [device], Normalised);
      match device {
        case NoDevice =>
        case NoData =>
        case FetchRaises =>
        case Fetched(data) =>
          var workers := ExtractWorkers(data);
          var record := MinerDataToDict(data, workers);
          results := results + [record];
      }
      i := i + 1;
    }
    assert devices[..i] == devices;
  }
}
