/**
  The JSON-shaped data the core reads: scalar values and instance ids, the
  normalised `{metric: {"instances": {id: value}}}` map, the raw pmproxy
  fetch response, metric metadata dicts, and the Python built-ins applied to
  them (`dict.get`, truthiness, `float()`, `int()`, `str()`, `== 0`).

  A Python dict is a list of (key, value) pairs with distinct keys in
  insertion order; `Get` is `dict.get`, which finds the one pair with that key.
*/
module Values {
  import opened Wrappers
  import opened Strings
  import opened Errors

  /** A JSON scalar as Python holds it. */
  datatype Value = Null | Bool(b: bool) | Int(i: int) | Float(r: real) | Text(s: string)

  /** An instance id: pmproxy uses integers (-1 for singular metrics) and names such as "1 minute". */
  datatype InstId = IdInt(n: int) | IdStr(s: string)

  // ------------------------------------------------------------------ dicts

  /** `d.get(k)`: the value paired with `k`, or None. */
  function Get<K(==), V>(d: seq<(K, V)>, k: K): (r: Option<V>)
    ensures r.None? <==> forall i :: 0 <= i < |d| ==> d[i].0 != k
    ensures r.Some? ==> exists i :: 0 <= i < |d| && d[i] == (k, r.value)
  {
    if |d| == 0 then None
    else if d[0].0 == k then Some(d[0].1)
    else Get(d[1..], k)
  }

  /** `d.get(k, default)`. */
  function GetOr<K(==), V>(d: seq<(K, V)>, k: K, default: V): V
  {
    Get(d, k).GetOr(default)
  }

  /** `list(d.keys())`. */
  function Keys<K, V>(d: seq<(K, V)>): (r: seq<K>)
    ensures |r| == |d|
    ensures forall i :: 0 <= i < |d| ==> r[i] == d[i].0
  {
    if |d| == 0 then [] else [d[0].0] + Keys(d[1..])
  }

  /** The keys of a Python dict are distinct. */
  ghost predicate DistinctKeys<K, V>(d: seq<(K, V)>)
  {
    forall i, j :: 0 <= i < j < |d| ==> d[i].0 != d[j].0
  }

  /** In a dict, `d.get(d_i.key)` finds `d_i`'s own value. */
  lemma {:induction false} GetAtKey<K, V>(d: seq<(K, V)>, i: int)
    requires DistinctKeys(d)
    requires 0 <= i < |d|
    ensures Get(d, d[i].0) == Some(d[i].1)
  {
    if i > 0 {
      assert d[0].0 != d[i].0;
      GetAtKey(d[1..], i - 1);
    }
  }

  // ------------------------------------------------------- Python built-ins

  /** `bool(v)`. */
  predicate Truthy(v: Value)
  {
    match v
    case Null => false
    case Bool(b) => b
    case Int(i) => i != 0
    case Float(r) => r != 0.0
    case Text(s) => |s| > 0
  }

  /** `v == 0`: True for 0, 0.0 and False. */
  predicate EqualsZero(v: Value)
  {
    v == Int(0) || v == Float(0.0) || v == Bool(false)
  }

  /** `v` is a number (or a bool, which Python treats as 0 or 1). */
  predicate Numeric(v: Value)
  {
    v.Bool? || v.Int? || v.Float?
  }

  /** The number a numeric value stands for. */
  function NumberOf(v: Value): real
    requires Numeric(v)
  {
    match v
    case Bool(b) => if b then 1.0 else 0.0
    case Int(i) => i as real
    case Float(r) => r
  }

  /** `int(x)` of a float: truncation toward zero. */
  function Trunc(r: real): (n: int)
    ensures r >= 0.0 ==> n as real <= r < n as real + 1.0
    ensures r < 0.0 ==> n as real - 1.0 < r <= n as real
  {
    if r >= 0.0 then r.Floor else -((-r).Floor)
  }

  /** `float(v)`: numbers convert, None and strings raise. */
  function ToFloat(v: Value): (r: Result<real, PyError>)
    ensures r.Ok? <==> Numeric(v)
    ensures r.Ok? ==> r.value == NumberOf(v)
  {
    match v
    case Null => Err(Other("TypeError", "float() argument must be a string or a real number, not 'NoneType'"))
    case Text(s) => Err(Other("ValueError", "could not convert string to float: '" + s + "'"))
    case _ => Ok(NumberOf(v))
  }

  /** `int(v)`: numbers convert (floats truncate toward zero), None and strings raise. */
  function ToInt(v: Value): (r: Result<int, PyError>)
    ensures r.Ok? <==> Numeric(v)
    ensures r.Ok? ==> r.value == Trunc(NumberOf(v))
  {
    match v
    case Null => Err(Other("TypeError", "int() argument must be a string, a bytes-like object or a real number, not 'NoneType'"))
    case Text(s) => Err(Other("ValueError", "invalid literal for int() with base 10: '" + s + "'"))
    case Bool(b) => Ok(if b then 1 else 0)
    case Int(i) => Ok(i)
    case Float(r) => Ok(Trunc(r))
  }

  /** `str(v)`; the rendering of a float is left to `floatRepr`. */
  function PyStr(v: Value, floatRepr: real -> string): string
  {
    match v
    case Null => "None"
    case Bool(b) => if b then "True" else "False"
    case Int(i) => IntToDecimal(i)
    case Float(r) => floatRepr(r)
    case Text(s) => s
  }

  /** `str(i)` of an instance id. */
  function InstIdStr(id: InstId): string
  {
    match id
    case IdInt(n) => IntToDecimal(n)
    case IdStr(s) => s
  }

  // ------------------------------------------------------- normalised data

  /** One metric of the normalised map; `instances` is None when the key is absent. */
  datatype MetricData = MetricData(instances: Option<seq<(InstId, Value)>>)

  /** `{metric: {"instances": {id: value}}}`, as `fetch_with_rates` returns it. */
  type Data = seq<(string, MetricData)>

  /** `data.get(metric, {}).get("instances", {})`. */
  function InstancesOf(data: Data, metric: string): (r: seq<(InstId, Value)>)
    ensures Get(data, metric).None? ==> r == []
    ensures Get(data, metric).Some? ==> r == Get(data, metric).value.instances.GetOr([])
  {
    match Get(data, metric)
    case None => []
    case Some(md) => md.instances.GetOr([])
  }

  // ----------------------------------------------------- raw fetch response

  /** One `{"instance": id, "value": v}` entry; an absent field is None, a JSON null value is Some(Null). */
  datatype RawInstance = RawInstance(instance: Option<InstId>, value: Option<Value>)

  /** One `{"name": ..., "instances": [...]}` entry; absent instances are the empty list. */
  datatype RawMetric = RawMetric(name: Option<string>, instances: seq<RawInstance>)

  /** The `timestamp` field: absent, a `{s, us}` map with optional fields, or a bare number of seconds. */
  datatype Timestamp = Missing | Structured(s: Option<real>, us: Option<real>) | Seconds(t: real)

  /** The JSON of `/pmapi/fetch`; absent `values` is the empty list. */
  datatype RawResponse = RawResponse(timestamp: Timestamp, values: seq<RawMetric>)

  // ------------------------------------------------------- metric metadata

  /** A metric metadata dict from `/pmapi/metric`: name, type, sem, units, indom, text-help, text-oneline, ... */
  type Meta = seq<(string, string)>

  /** `m.get(key) or fallback`: an absent or empty entry falls through. */
  function GetOrElse(m: Meta, key: string, fallback: string): (r: string)
    ensures Get(m, key).Some? && Get(m, key).value != "" ==> r == Get(m, key).value
    ensures Get(m, key).None? || Get(m, key).value == "" ==> r == fallback
  {
    match Get(m, key)
    case Some(v) => if v != "" then v else fallback
    case None => fallback
  }
}
