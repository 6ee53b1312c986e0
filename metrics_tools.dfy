/**
  The core metric tools of `tools/metrics.py`: flattening a fetch response
  into one value per instance, mapping search results, the defaults of
  `describe_metric`, and the units text. Each tool starts from the client's
  reply, which is either the parsed JSON or the exception the client raised.
*/
module MetricsTools {
  import opened Wrappers
  import opened Strings
  import opened Errors
  import opened Values
  import opened Extractors

  // -------------------------------------------------------- query_metrics

  /** One reported value; `instance` None stands for a singular metric. */
  datatype MetricValue = MetricValue(name: string, value: Value, instance: Option<InstId>)

  /** The value reported for one instance entry of metric `m`. */
  function MetricValueOf(m: RawMetric, inst: RawInstance): (v: MetricValue)
    ensures v.name == m.name.GetOr("")
    ensures v.value == inst.value.GetOr(Null)
    ensures v.instance.None? <==> inst.instance.None? || inst.instance == Some(IdInt(-1))
    ensures v.instance.Some? ==> v.instance == inst.instance
  {
    MetricValue(m.name.GetOr(""), inst.value.GetOr(Null),
                if inst.instance == Some(IdInt(-1)) then None else inst.instance)
  }

  /** The values of the first entries of `insts`, all of metric `m`. */
  function InstanceValues(m: RawMetric, insts: seq<RawInstance>): seq<MetricValue>
  {
    if |insts| == 0 then [] else InstanceValues(m, insts[..|insts| - 1]) + [MetricValueOf(m, insts[|insts| - 1])]
  }

  /** All values of the response, metric by metric and instance by instance. */
  function Flatten(values: seq<RawMetric>): (r: seq<MetricValue>)
    ensures |r| == TotalInstances(values)
  {
    if |values| == 0 then []
    else
      InstanceValuesAt(values[|values| - 1], values[|values| - 1].instances);
      Flatten(values[..|values| - 1]) + InstanceValues(values[|values| - 1], values[|values| - 1].instances)
  }

  /** The number of instance entries in the response. */
  function TotalInstances(values: seq<RawMetric>): nat
  {
    if |values| == 0 then 0 else TotalInstances(values[..|values| - 1]) + |values[|values| - 1].instances|
  }

  /** One value per instance entry, in order. */
  lemma {:induction false} InstanceValuesAt(m: RawMetric, insts: seq<RawInstance>)
    ensures |InstanceValues(m, insts)| == |insts|
    ensures forall j | 0 <= j < |insts| :: InstanceValues(m, insts)[j] == MetricValueOf(m, insts[j])
  {
    if |insts| > 0 {
      InstanceValuesAt(m, insts[..|insts| - 1]);
    }
  }

  /** The value of instance `j` of metric `i` sits after all instances of the metrics before `i`. */
  lemma {:induction false} FlattenAt(values: seq<RawMetric>, i: nat, j: nat)
    requires i < |values| && j < |values[i].instances|
    ensures TotalInstances(values[..i]) + j < |Flatten(values)|
    ensures Flatten(values)[TotalInstances(values[..i]) + j] == MetricValueOf(values[i], values[i].instances[j])
  {
    var n := |values|;
    var init := values[..n - 1];
    InstanceValuesAt(values[n - 1], values[n - 1].instances);
    if i < n - 1 {
      FlattenAt(init, i, j);
      assert init[..i] == values[..i];
    } else {
      assert values[..i] == init;
    }
  }

  /** `query_metrics(names)`: the fetch failure is reported, otherwise every instance becomes one value. */
  method QueryMetrics(response: Result<RawResponse, PyError>) returns (r: Result<seq<MetricValue>, PyError>)
    ensures response.Err? ==> r == Err(HandlePcpError(response.error, "fetching metrics"))
    ensures response.Ok? ==> r == Ok(Flatten(response.value.values))
  {
    if response.Err? {
      return Err(HandlePcpError(response.error, "fetching metrics"));
    }
    var values := response.value.values;
    var results: seq<MetricValue> := [];
    var i := 0;
    while i < |values|
      invariant 0 <= i <= |values|
      invariant results == Flatten(values[..i])
    {
      var metric := values[i];
      var instances := metric.instances;
      var j := 0;
      while j < |instances|
        invariant 0 <= j <= |instances|
        invariant results == Flatten(values[..i]) + InstanceValues(metric, instances[..j])
      {
        results := results + [MetricValueOf(metric, instances[j])];
        assert instances[..j + 1][..j] == instances[..j];
        j := j + 1;
      }
      assert instances[..j] == instances;
      assert values[..i + 1][..i] == values[..i];
      i := i + 1;
    }
    assert values[..i] == values;
    return Ok(results);
  }

  // ------------------------------------------------------- search_metrics

  datatype SearchResult = SearchResult(name: string, helpText: string)

  /** `search_metrics(pattern)`: each metric, in order, becomes its name (default "") and its help text. */
  function SearchMetrics(metrics: Result<seq<Meta>, PyError>): (r: Result<seq<SearchResult>, PyError>)
    ensures metrics.Err? ==> r == Err(HandlePcpError(metrics.error, "searching metrics"))
    ensures metrics.Ok? ==> r.Ok? && |r.value| == |metrics.value|
    ensures metrics.Ok? ==> forall i | 0 <= i < |metrics.value| ::
              r.value[i].name == GetOr(metrics.value[i], "name", "")
              && r.value[i].helpText == ExtractHelpText(metrics.value[i], "")
  {
    match metrics
    case Err(e) => Err(HandlePcpError(e, "searching metrics"))
    case Ok(ms) =>
      Ok(seq(|ms|, i requires 0 <= i < |ms| => SearchResult(GetOr(ms[i], "name", ""), ExtractHelpText(ms[i], ""))))
  }

  // ------------------------------------------------------- describe_metric

  datatype MetricInfo = MetricInfo(name: string, metricType: string, semantics: string, units: string,
                                   helpText: string, indom: Option<string>)

  /** The non-empty unit components, space, time and count, in that order. */
  function UnitComponents(info: Meta): seq<string>
  {
    (if GetOrElse(info, "units-space", "") != "" then [Get(info, "units-space").value] else [])
    + (if GetOrElse(info, "units-time", "") != "" then [Get(info, "units-time").value] else [])
    + (if GetOrElse(info, "units-count", "") != "" then [Get(info, "units-count").value] else [])
  }

  /** The units text: the `units` entry if non-empty, else the components joined by " / ", else "none". */
  function UnitsText(info: Meta): (r: string)
    ensures r != ""
  {
    if GetOrElse(info, "units", "") != "" then Get(info, "units").value
    else if |UnitComponents(info)| == 0 then "none"
    else
      var parts := UnitComponents(info);
      assert parts[0] != "";
      JoinStartsWithFirst(parts, " / ");
      Join(parts, " / ")
  }

  /** A join of parts whose first part is non-empty starts with that part. */
  lemma JoinStartsWithFirst(parts: seq<string>, sep: string)
    requires |parts| > 0
    ensures parts[0] <= Join(parts, sep)
  {
  }

  /** A single unit component stands alone; with no units at all the text is "none". */
  lemma UnitsTextShape(info: Meta)
    ensures GetOrElse(info, "units", "") == "" && |UnitComponents(info)| == 1 ==> UnitsText(info) == UnitComponents(info)[0]
    ensures (GetOrElse(info, "units", "") == "" && GetOrElse(info, "units-space", "") == ""
             && GetOrElse(info, "units-time", "") == "" && GetOrElse(info, "units-count", "") == "") ==> UnitsText(info) == "none"
  {
  }

  /** `_format_units(info)`: the components are appended one by one. */
  method FormatUnits(info: Meta) returns (units: string)
    ensures units == UnitsText(info)
  {
    var given := GetOr(info, "units", "");
    if given != "" {
      return given;
    }
    var parts: seq<string> := [];
    if GetOrElse(info, "units-space", "") != "" {
      parts := parts + [Get(info, "units-space").value];
    }
    if GetOrElse(info, "units-time", "") != "" {
      parts := parts + [Get(info, "units-time").value];
    }
    if GetOrElse(info, "units-count", "") != "" {
      parts := parts + [Get(info, "units-count").value];
    }
    assert parts == UnitComponents(info);
    if |parts| == 0 {
      return "none";
    }
    return Join(parts, " / ");
  }

  /**
    `describe_metric(name)`: a failed request is reported; an empty reply is
    "Metric not found"; otherwise missing fields take their defaults.
  */
  function DescribeMetric(name: string, info: Result<Meta, PyError>): (r: Result<MetricInfo, PyError>)
    ensures info.Err? ==> r == Err(HandlePcpError(info.error, "describing metric"))
    ensures info.Ok? && |info.value| == 0 ==> r == Err(ToolError("Metric not found: " + name))
    ensures info.Ok? && |info.value| > 0 ==> r.Ok?
    ensures r.Ok? ==> (Get(info.value, "name").None? ==> r.value.name == name)
    ensures r.Ok? ==> (Get(info.value, "type").None? ==> r.value.metricType == "unknown")
    ensures r.Ok? ==> (Get(info.value, "sem").None? ==> r.value.semantics == "unknown")
    ensures r.Ok? ==> r.value.units == UnitsText(info.value) && r.value.helpText == ExtractHelpText(info.value, "")
    ensures r.Ok? ==> r.value.indom == Get(info.value, "indom")
    ensures r.Ok? ==> r.value.name == GetOr(info.value, "name", name) && r.value.metricType == GetOr(info.value, "type", "unknown")
                      && r.value.semantics == GetOr(info.value, "sem", "unknown")
  {
    match info
    case Err(e) => Err(HandlePcpError(e, "describing metric"))
    case Ok(m) =>
      if |m| == 0 then Err(ToolError("Metric not found: " + name))
      else Ok(MetricInfo(GetOr(m, "name", name), GetOr(m, "type", "unknown"), GetOr(m, "sem", "unknown"),
                         UnitsText(m), ExtractHelpText(m, ""), Get(m, "indom")))
  }
}
