/**
  The four read-only accessors of ParseSensorData.py over a LibreLinkUp response.

  The response is the decoded JSON document.  Each accessor is a chain of
  Python subscripts `data['a']['b']...`; a subscript yields the member of a
  dictionary, and fails with `KeyError` when the key is absent and with
  `TypeError` when the value subscripted is not a dictionary (null, a
  boolean, a number, a string or a list indexed by a string key).  No
  accessor supplies a default: the failure propagates to the caller.
*/
module ParseSensorData {

  /** A decoded JSON value. */
  datatype Json =
    | JNull
    | JBool(b: bool)
    | JNum(n: real)
    | JStr(s: string)
    | JArr(items: seq<Json>)
    | JObj(fields: map<string, Json>)

  /** Why a subscript failed, with the key that was asked for. */
  datatype Failure = KeyError(key: string) | TypeError(key: string)

  /** The outcome of one or more subscripts. */
  datatype Access = Found(value: Json) | Failed(error: Failure)
  {
    /** One more subscript `[key]` applied to the outcome so far; a failure passes through. */
    function Get(key: string): (r: Access)
      ensures Failed? ==> r == this
    {
      match this
      case Failed(_) => this
      case Found(j) => Subscript(j, key)
    }
  }

  /** Python's `j[key]` for a string key. */
  function Subscript(j: Json, key: string): (r: Access)
    ensures r.Found? <==> j.JObj? && key in j.fields
    ensures r.Failed? ==> r.error.key == key
    ensures r.Found? ==> r.value == j.fields[key]
  {
    match j
    case JObj(fields) => if key in fields then Found(fields[key]) else Failed(KeyError(key))
    case _ => Failed(TypeError(key))
  }

  /** Reference definition: the value at the end of a path of keys, or the first failure on it. */
  function Lookup(j: Json, path: seq<string>): Access
    decreases |path|
  {
    if path == [] then Found(j)
    else match Subscript(j, path[0])
      case Failed(e) => Failed(e)
      case Found(child) => Lookup(child, path[1..])
  }

  /** Continue a lookup with more keys, passing a failure through unchanged. */
  function Follow(a: Access, path: seq<string>): Access
  {
    match a
    case Failed(_) => a
    case Found(j) => Lookup(j, path)
  }

  /** Looking up `p + q` is looking up `p`, then `q` from where `p` ended. */
  lemma {:induction false} LookupAppend(j: Json, p: seq<string>, q: seq<string>)
    ensures Lookup(j, p + q) == Follow(Lookup(j, p), q)
    decreases |p|
  {
    if p == [] {
      assert p + q == q;
    } else {
      assert (p + q)[0] == p[0];
      assert (p + q)[1..] == p[1..] + q;
      match Subscript(j, p[0])
      case Failed(e) =>
      case Found(child) => LookupAppend(child, p[1..], q);
    }
  }

  /** A failure part-way along a path is the failure of the whole path: no default is substituted. */
  lemma PrefixFailureIsFinal(j: Json, p: seq<string>, q: seq<string>)
    requires Lookup(j, p).Failed?
    ensures Lookup(j, p + q) == Lookup(j, p)
  {
    LookupAppend(j, p, q);
  }

  /** A missing key (or a non-dictionary) at any position k of the path makes the lookup fail with that key's error. */
  lemma MissingKeyFails(j: Json, p: seq<string>, k: nat)
    requires k < |p|
    requires Lookup(j, p[..k]).Found?
    requires Subscript(Lookup(j, p[..k]).value, p[k]).Failed?
    ensures Lookup(j, p) == Subscript(Lookup(j, p[..k]).value, p[k])
  {
    assert p == p[..k] + p[k..];
    LookupAppend(j, p[..k], p[k..]);
    assert p[k..][0] == p[k];
  }

  /** Conversely, a successful lookup found a dictionary holding the next key at every step of the path. */
  lemma FoundHasEveryKey(j: Json, p: seq<string>, k: nat)
    requires k < |p|
    requires Lookup(j, p).Found?
    ensures Lookup(j, p[..k]).Found?
    ensures Lookup(j, p[..k]).value.JObj? && p[k] in Lookup(j, p[..k]).value.fields
  {
    assert p == p[..k] + p[k..];
    LookupAppend(j, p[..k], p[k..]);
    assert p[k..][0] == p[k];
  }

  /** A chain of two subscripts is the lookup of the two-key path. */
  lemma {:induction false} Chain2(j: Json, a: string, b: string)
    ensures Found(j).Get(a).Get(b) == Lookup(j, [a, b])
  {
    assert [a, b][1..] == [b];
    assert [b][1..] == [];
    match Subscript(j, a)
    case Failed(_) =>
    case Found(x) =>
      assert Lookup(j, [a, b]) == Lookup(x, [b]);
      match Subscript(x, b)
      case Failed(_) =>
      case Found(y) => assert Lookup(x, [b]) == Lookup(y, []);
  }

  /** A chain of four subscripts is the lookup of the four-key path. */
  lemma {:induction false} Chain4(j: Json, a: string, b: string, c: string, d: string)
    ensures Found(j).Get(a).Get(b).Get(c).Get(d) == Lookup(j, [a, b, c, d])
  {
    assert [a, b, c, d][1..] == [b, c, d];
    match Subscript(j, a)
    case Failed(_) =>
    case Found(x) =>
      assert [b, c, d][1..] == [c, d];
      match Subscript(x, b)
      case Failed(_) =>
      case Found(y) => Chain2(y, c, d);
  }

  /** Where the latest measurement record sits in the response. */
  const MeasurementPath: seq<string> := ["data", "connection", "glucoseMeasurement"]

  /** `getLatestMeasurement`: the `Value` field of the latest measurement record. */
  function GetLatestMeasurement(data: Json): (r: Access)
    ensures r == Lookup(data, MeasurementPath + ["Value"])
  {
    assert MeasurementPath + ["Value"] == ["data", "connection", "glucoseMeasurement", "Value"];
    Chain4(data, "data", "connection", "glucoseMeasurement", "Value");
    Found(data).Get("data").Get("connection").Get("glucoseMeasurement").Get("Value")
  }

  /** `getLatestMeasurementTimestamp`: the `Timestamp` field of the same record. */
  function GetLatestMeasurementTimestamp(data: Json): (r: Access)
    ensures r == Lookup(data, MeasurementPath + ["Timestamp"])
  {
    assert MeasurementPath + ["Timestamp"] == ["data", "connection", "glucoseMeasurement", "Timestamp"];
    Chain4(data, "data", "connection", "glucoseMeasurement", "Timestamp");
    Found(data).Get("data").Get("connection").Get("glucoseMeasurement").Get("Timestamp")
  }

  /** `getLatestMeasurementTrendArrow`: the `TrendArrow` field of the same record. */
  function GetLatestMeasurementTrendArrow(data: Json): (r: Access)
    ensures r == Lookup(data, MeasurementPath + ["TrendArrow"])
  {
    assert MeasurementPath + ["TrendArrow"] == ["data", "connection", "glucoseMeasurement", "TrendArrow"];
    Chain4(data, "data", "connection", "glucoseMeasurement", "TrendArrow");
    Found(data).Get("data").Get("connection").Get("glucoseMeasurement").Get("TrendArrow")
  }

  /** `getAllMeasurements`: the `graphData` field under `data`. */
  function GetAllMeasurements(data: Json): (r: Access)
    ensures r == Lookup(data, ["data", "graphData"])
  {
    Chain2(data, "data", "graphData");
    Found(data).Get("data").Get("graphData")
  }

  /**
    The three "latest" accessors read the one record at MeasurementPath: when
    that path fails they all fail with its error, and when it yields a record
    each is a plain subscript of that record.
  */
  lemma LatestAccessorsShareRecord(data: Json)
    ensures Lookup(data, MeasurementPath).Failed? ==>
      GetLatestMeasurement(data) == Lookup(data, MeasurementPath) &&
      GetLatestMeasurementTimestamp(data) == Lookup(data, MeasurementPath) &&
      GetLatestMeasurementTrendArrow(data) == Lookup(data, MeasurementPath)
    ensures Lookup(data, MeasurementPath).Found? ==>
      var record := Lookup(data, MeasurementPath).value;
      GetLatestMeasurement(data) == Subscript(record, "Value") &&
      GetLatestMeasurementTimestamp(data) == Subscript(record, "Timestamp") &&
      GetLatestMeasurementTrendArrow(data) == Subscript(record, "TrendArrow")
  {
    LookupAppend(data, MeasurementPath, ["Value"]);
    LookupAppend(data, MeasurementPath, ["Timestamp"]);
    LookupAppend(data, MeasurementPath, ["TrendArrow"]);
    assert ["Value"][1..] == [] && ["Timestamp"][1..] == [] && ["TrendArrow"][1..] == [];
  }

  /** A well-formed response carrying the given latest record fields and measurement history. */
  function Response(value: Json, timestamp: Json, arrow: Json, graph: Json): Json
  {
    JObj(map["data" := JObj(map[
      "connection" := JObj(map["glucoseMeasurement" := JObj(map[
        "Value" := value, "Timestamp" := timestamp, "TrendArrow" := arrow])]),
      "graphData" := graph])])
  }

  /** Reading back a response built from four fields yields exactly those fields. */
  lemma ResponseRoundTrip(value: Json, timestamp: Json, arrow: Json, graph: Json)
    ensures var data := Response(value, timestamp, arrow, graph);
      GetLatestMeasurement(data) == Found(value) &&
      GetLatestMeasurementTimestamp(data) == Found(timestamp) &&
      GetLatestMeasurementTrendArrow(data) == Found(arrow) &&
      GetAllMeasurements(data) == Found(graph)
  {
  }
}
