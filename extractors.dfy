/**
  The extraction helpers of `utils/extractors.py` (duplicated verbatim as the
  private `_get_first_value`, `_get_scalar_value` and `_sum_instances` of
  `tools/system.py`): lookups over the normalised data map and the raw fetch
  response that fall back to a default on every absent key.
*/
module Extractors {
  import opened Wrappers
  import opened Errors
  import opened Values

  /** `get_first_value(data, metric, default)`. */
  function GetFirstValue(data: Data, metric: string, default: real): (r: Result<real, PyError>)
    ensures |InstancesOf(data, metric)| == 0 ==> r == Ok(default)
    ensures |InstancesOf(data, metric)| > 0 ==> r == ToFloat(InstancesOf(data, metric)[0].1)
  {
    var instances := InstancesOf(data, metric);
    if |instances| > 0 then ToFloat(instances[0].1) else Ok(default)
  }

  /**
    Absent keys never raise: the result is the default when the metric, its
    `instances` key or every instance is missing, and otherwise `float()` of
    the first instance, which raises only for None or a string.
  */
  lemma GetFirstValueTotal(data: Data, metric: string, default: real)
    ensures Get(data, metric).None? ==> GetFirstValue(data, metric, default) == Ok(default)
    ensures Get(data, metric).Some? && Get(data, metric).value.instances.None? ==> GetFirstValue(data, metric, default) == Ok(default)
    ensures GetFirstValue(data, metric, default).Err? <==>
              |InstancesOf(data, metric)| > 0 && !Numeric(InstancesOf(data, metric)[0].1)
    ensures GetFirstValue(data, metric, default).Ok? && |InstancesOf(data, metric)| > 0 ==>
              GetFirstValue(data, metric, default).value == NumberOf(InstancesOf(data, metric)[0].1)
  {
  }

  // ---------------------------------------------------------- scalar value

  /** The first-instance conversion applied to a matching entry: `int(instances[0].get("value", default))`. */
  function FirstScalar(m: RawMetric, default: int): Result<int, PyError>
    requires |m.instances| > 0
  {
    match m.instances[0].value
    case None => Ok(default)
    case Some(v) => ToInt(v)
  }

  /** The entry matches: right name, at least one instance. */
  predicate Matches(m: RawMetric, metric: string)
  {
    m.name == Some(metric) && |m.instances| > 0
  }

  /** The loop of `get_scalar_value`: the first matching entry decides. */
  function ScalarIn(values: seq<RawMetric>, metric: string, default: int): (r: Result<int, PyError>)
    ensures r.Err? ==> exists i :: 0 <= i < |values| && Matches(values[i], metric)
  {
    if |values| == 0 then Ok(default)
    else if Matches(values[0], metric) then FirstScalar(values[0], default)
    else ScalarIn(values[1..], metric, default)
  }

  /** `get_scalar_value(response, metric, default)`. */
  function GetScalarValue(response: RawResponse, metric: string, default: int): (r: Result<int, PyError>)
    ensures r.Err? ==> exists i :: 0 <= i < |response.values| && Matches(response.values[i], metric)
  {
    ScalarIn(response.values, metric, default)
  }

  /** An entry at index `k` matches and none before it does. */
  ghost predicate FirstMatchAt(values: seq<RawMetric>, metric: string, k: int)
  {
    0 <= k < |values| && Matches(values[k], metric) && forall j :: 0 <= j < k ==> !Matches(values[j], metric)
  }

  /**
    `get_scalar_value` reads the first entry with the requested name and a
    non-empty instance list (earlier same-named entries without instances are
    skipped), and gives the default when there is none.
  */
  lemma {:induction false} ScalarValueFirstMatch(response: RawResponse, metric: string, default: int)
    ensures forall k :: FirstMatchAt(response.values, metric, k) ==>
              GetScalarValue(response, metric, default) == FirstScalar(response.values[k], default)
    ensures (forall j :: 0 <= j < |response.values| ==> !Matches(response.values[j], metric)) ==>
              GetScalarValue(response, metric, default) == Ok(default)
  {
    ScalarInFirstMatch(response.values, metric, default);
  }

  lemma {:induction false} ScalarInFirstMatch(values: seq<RawMetric>, metric: string, default: int)
    ensures forall k :: FirstMatchAt(values, metric, k) ==> ScalarIn(values, metric, default) == FirstScalar(values[k], default)
    ensures (forall j :: 0 <= j < |values| ==> !Matches(values[j], metric)) ==> ScalarIn(values, metric, default) == Ok(default)
  {
    if |values| > 0 {
      ScalarInFirstMatch(values[1..], metric, default);
      forall k | FirstMatchAt(values, metric, k)
        ensures ScalarIn(values, metric, default) == FirstScalar(values[k], default)
      {
        if k > 0 {
          assert FirstMatchAt(values[1..], metric, k - 1);
        }
      }
      if forall j :: 0 <= j < |values| ==> !Matches(values[j], metric) {
        assert forall j :: 0 <= j < |values| - 1 ==> !Matches(values[1..][j], metric);
      }
    }
  }

  /** A missing `value` falls back to the default, and only None or a string raises. */
  lemma FirstScalarDefaults(m: RawMetric, default: int)
    requires |m.instances| > 0
    ensures m.instances[0].value.None? ==> FirstScalar(m, default) == Ok(default)
    ensures FirstScalar(m, default).Err? <==> m.instances[0].value.Some? && !Numeric(m.instances[0].value.value)
  {
  }

  // ------------------------------------------------------------------- sum

  /** `sum(float(v) for v in values)`: the first value `float()` rejects raises. */
  function SumValues(insts: seq<(InstId, Value)>): Result<real, PyError>
  {
    if |insts| == 0 then Ok(0.0)
    else
      var head :- ToFloat(insts[0].1);
      var rest :- SumValues(insts[1..]);
      Ok(head + rest)
  }

  /** The arithmetic sum of numeric values. */
  ghost function Total(insts: seq<(InstId, Value)>): real
    requires forall i :: 0 <= i < |insts| ==> Numeric(insts[i].1)
  {
    if |insts| == 0 then 0.0 else NumberOf(insts[0].1) + Total(insts[1..])
  }

  /** `sum_instances(data, metric)`. */
  function SumInstances(data: Data, metric: string): (r: Result<real, PyError>)
    ensures |InstancesOf(data, metric)| == 0 ==> r == Ok(0.0)
  {
    SumValues(InstancesOf(data, metric))
  }

  /** The sum is the total of all instance values when every value is a number, and raises otherwise. */
  lemma {:induction false} SumValuesTotal(insts: seq<(InstId, Value)>)
    ensures SumValues(insts).Ok? <==> forall i :: 0 <= i < |insts| ==> Numeric(insts[i].1)
    ensures SumValues(insts).Ok? ==> SumValues(insts).value == Total(insts)
  {
    if |insts| > 0 {
      SumValuesTotal(insts[1..]);
      assert forall i :: 1 <= i < |insts| ==> insts[i] == insts[1..][i - 1];
    }
  }

  /** Summing over two groups of interfaces adds their sums. */
  lemma {:induction false} SumValuesAppend(a: seq<(InstId, Value)>, b: seq<(InstId, Value)>)
    requires SumValues(a).Ok? && SumValues(b).Ok?
    ensures SumValues(a + b) == Ok(SumValues(a).value + SumValues(b).value)
  {
    if |a| > 0 {
      assert (a + b)[1..] == a[1..] + b;
      SumValuesAppend(a[1..], b);
    } else {
      assert a + b == b;
    }
  }

  /** A sum of non-negative rates is non-negative. */
  lemma {:induction false} SumValuesNonNegative(insts: seq<(InstId, Value)>)
    requires forall i :: 0 <= i < |insts| ==> Numeric(insts[i].1) && NumberOf(insts[i].1) >= 0.0
    ensures SumValues(insts).Ok? && SumValues(insts).value >= 0.0
  {
    if |insts| > 0 {
      assert forall i :: 0 <= i < |insts| - 1 ==> insts[1..][i] == insts[i + 1];
      SumValuesNonNegative(insts[1..]);
    }
  }

  // ------------------------------------------------------------- help text

  /** `extract_help_text(m, default)`: `text-help`, else `text-oneline`, else the default; empty counts as missing. */
  function ExtractHelpText(m: Meta, default: string): (r: string)
    ensures GetOrElse(m, "text-help", "") != "" ==> r == Get(m, "text-help").value
    ensures GetOrElse(m, "text-help", "") == "" && GetOrElse(m, "text-oneline", "") != "" ==> r == Get(m, "text-oneline").value
    ensures GetOrElse(m, "text-help", "") == "" && GetOrElse(m, "text-oneline", "") == "" ==> r == default
  {
    GetOrElse(m, "text-help", GetOrElse(m, "text-oneline", default))
  }

  // ------------------------------------------------------------- timestamp

  /**
    `extract_timestamp(response)` as written: `ts.get("s", 0) + ts.get("us", 0) / 1e6`.
    A bare number has no `.get`, so that shape raises AttributeError.
  */
  function ExtractTimestampAsWritten(response: RawResponse): (r: Result<real, PyError>)
    ensures response.timestamp.Seconds? <==> r.Err?
  {
    match response.timestamp
    case Missing => Ok(0.0)
    case Structured(s, us) => Ok(s.GetOr(0.0) + us.GetOr(0.0) / 1000000.0)
    case Seconds(_) => Err(Other("AttributeError", "'float' object has no attribute 'get'"))
  }

  /** A float timestamp, which the source's own test accepts as a value in seconds, breaks the function as written. */
  lemma FloatTimestampRejected()
    ensures ExtractTimestampAsWritten(RawResponse(Seconds(1234.567), [])).Err?
  {
  }

  /** The intended `extract_timestamp`: seconds plus microseconds, or a bare number of seconds taken as is. */
  function ExtractTimestamp(response: RawResponse): (r: real)
    ensures response.timestamp.Seconds? ==> r == response.timestamp.t
    ensures !response.timestamp.Seconds? ==> ExtractTimestampAsWritten(response) == Ok(r)
  {
    match response.timestamp
    case Missing => 0.0
    case Structured(s, us) => s.GetOr(0.0) + us.GetOr(0.0) / 1000000.0
    case Seconds(t) => t
  }

  /** Microseconds add a fraction below one second, and missing fields count as 0. */
  lemma TimestampParts(s: real, us: real)
    requires 0.0 <= us < 1000000.0
    ensures s <= ExtractTimestamp(RawResponse(Structured(Some(s), Some(us)), [])) < s + 1.0
    ensures ExtractTimestamp(RawResponse(Structured(None, None), [])) == 0.0
    ensures ExtractTimestamp(RawResponse(Structured(Some(s), None), [])) == s
  {
  }
}
