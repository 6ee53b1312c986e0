/**
  The metric resources of `resources/metrics.py`: the markdown listing of a
  search (`pcp://metrics/{pattern}`) and the detail page of one metric
  (`pcp://metric/{name}`). Unlike the tools, both return a failure as text
  instead of raising it.
*/
module MetricsResources {
  import opened Wrappers
  import opened Strings
  import opened Errors
  import opened Values
  import opened Extractors

  // -------------------------------------------------------- browse_metrics

  /** At most this many metrics are listed. */
  const ListLimit := 50

  /** The help text of a listing line: `text-oneline` first, then `text-help`. */
  function BrowseHelp(m: Meta): string
  {
    GetOrElse(m, "text-oneline", GetOr(m, "text-help", ""))
  }

  /** The listing line of one metric; without help text it has no ": " part. */
  function MetricLine(m: Meta): (line: string)
    ensures BrowseHelp(m) == "" ==> line == "- **" + GetOr(m, "name", "unknown") + "**"
    ensures BrowseHelp(m) != "" ==> line == "- **" + GetOr(m, "name", "unknown") + "**: " + BrowseHelp(m)
  {
    var name := GetOr(m, "name", "unknown");
    var help := BrowseHelp(m);
    if help != "" then "- **" + name + "**: " + help else "- **" + name + "**"
  }

  function MetricLines(ms: seq<Meta>): (lines: seq<string>)
  {
    if |ms| == 0 then [] else MetricLines(ms[..|ms| - 1]) + [MetricLine(ms[|ms| - 1])]
  }

  lemma {:induction false} MetricLinesAt(ms: seq<Meta>)
    ensures |MetricLines(ms)| == |ms|
    ensures forall i | 0 <= i < |ms| :: MetricLines(ms)[i] == MetricLine(ms[i])
  {
    if |ms| > 0 {
      MetricLinesAt(ms[..|ms| - 1]);
    }
  }

  function Header(pattern: string): seq<string>
  {
    ["# Metrics matching '" + pattern + "'", ""]
  }

  function Trailer(n: nat): seq<string>
  {
    if n > ListLimit then ["\n... and " + NatToDecimal(n - ListLimit) + " more metrics"] else []
  }

  /** The lines of a non-empty listing: header, one line per listed metric, then the count of the rest. */
  function BrowseLines(pattern: string, ms: seq<Meta>): seq<string>
  {
    Header(pattern) + MetricLines(if |ms| <= ListLimit then ms else ms[..ListLimit]) + Trailer(|ms|)
  }

  /**
    Only the first 50 metrics get a line, in order, and a trailer counting the
    others is added exactly when there are more than 50.
  */
  lemma BrowseLinesShape(pattern: string, ms: seq<Meta>)
    ensures var lines := BrowseLines(pattern, ms);
      var shown := if |ms| <= ListLimit then |ms| else ListLimit;
      && |lines| == 2 + shown + (if |ms| > ListLimit then 1 else 0)
      && lines[0] == "# Metrics matching '" + pattern + "'" && lines[1] == ""
      && (forall i | 0 <= i < shown :: lines[2 + i] == MetricLine(ms[i]))
      && (|ms| > ListLimit ==> lines[|lines| - 1] == "\n... and " + NatToDecimal(|ms| - ListLimit) + " more metrics")
  {
    MetricLinesAt(if |ms| <= ListLimit then ms else ms[..ListLimit]);
  }

  /** The listing prefers the one-line help; `extract_help_text` prefers the long one. */
  lemma BrowseHelpReversed(m: Meta)
    requires GetOrElse(m, "text-oneline", "") != "" && GetOrElse(m, "text-help", "") != ""
    ensures BrowseHelp(m) == Get(m, "text-oneline").value
    ensures ExtractHelpText(m, "") == Get(m, "text-help").value
  {
  }

  /** `browse_metrics(pattern)`: the search failure or an empty result is the text returned. */
  method BrowseMetrics(pattern: string, metrics: Result<seq<Meta>, PyError>) returns (text: string)
    ensures metrics.Err? ==> text == "Error searching metrics: " + metrics.error.msg
    ensures metrics.Ok? && |metrics.value| == 0 ==> text == "No metrics found matching pattern: " + pattern
    ensures metrics.Ok? && |metrics.value| > 0 ==> text == Join(BrowseLines(pattern, metrics.value), "\n")
  {
    if metrics.Err? {
      return "Error searching metrics: " + metrics.error.msg;
    }
    var ms := metrics.value;
    if |ms| == 0 {
      return "No metrics found matching pattern: " + pattern;
    }
    var lines := Header(pattern);
    var shown := if |ms| <= ListLimit then ms else ms[..ListLimit];
    var i := 0;
    while i < |shown|
      invariant 0 <= i <= |shown|
      invariant lines == Header(pattern) + MetricLines(shown[..i])
    {
      lines := lines + [MetricLine(shown[i])];
      assert shown[..i + 1][..i] == shown[..i];
      i := i + 1;
    }
    assert shown[..i] == shown;
    if |ms| > ListLimit {
      lines := lines + ["\n... and " + NatToDecimal(|ms| - ListLimit) + " more metrics"];
    }
    assert lines == BrowseLines(pattern, ms);
    return Join(lines, "\n");
  }

  // --------------------------------------------------------- metric_detail

  /** The help text of the detail page: non-empty `text-help`, else `text-oneline` as given, else a fixed notice. */
  function DetailHelp(info: Meta): (help: string)
    ensures GetOrElse(info, "text-help", "") != "" ==> help == Get(info, "text-help").value
    ensures GetOrElse(info, "text-help", "") == "" && Get(info, "text-oneline").Some? ==> help == Get(info, "text-oneline").value
    ensures GetOrElse(info, "text-help", "") == "" && Get(info, "text-oneline").None? ==> help == "No description available"
  {
    GetOrElse(info, "text-help", GetOr(info, "text-oneline", "No description available"))
  }

  /**
    The detail page agrees with `extract_help_text` under the same fallback,
    except when `text-help` is missing or empty and `text-oneline` is present
    but empty: then the page shows no description at all.
  */
  lemma DetailHelpVsExtract(info: Meta)
    ensures Get(info, "text-oneline") != Some("") ==> DetailHelp(info) == ExtractHelpText(info, "No description available")
    ensures GetOrElse(info, "text-help", "") == "" && Get(info, "text-oneline") == Some("") ==> DetailHelp(info) == ""
  {
  }

  /** The markdown detail page. */
  function DetailPage(name: string, metricType: string, semantics: string, units: string, indom: string,
                      help: string): string
  {
    "# " + name + "\n\n## Metadata\n- **Type**: " + metricType + "\n- **Semantics**: " + semantics
    + "\n- **Units**: " + units + "\n- **Instance Domain**: " + indom + "\n\n## Description\n" + help
    + "\n\n## Usage\nTo fetch current values:\n```\nUse the query_metrics tool with names=[\"" + name + "\"]\n```\n"
  }

  /**
    `metric_detail(name)`: the describe failure or a missing metric is the text
    returned; otherwise type and semantics default to "unknown", units and
    instance domain to "none".
  */
  function MetricDetail(name: string, info: Result<Meta, PyError>): (text: string)
    ensures info.Err? ==> text == "Error describing metric: " + info.error.msg
    ensures info.Ok? && |info.value| == 0 ==> text == "Metric not found: " + name
    ensures info.Ok? && |info.value| > 0 ==>
              text == DetailPage(name, GetOr(info.value, "type", "unknown"), GetOr(info.value, "sem", "unknown"),
                                 GetOr(info.value, "units", "none"), GetOr(info.value, "indom", "none"),
                                 DetailHelp(info.value))
  {
    match info
    case Err(e) => "Error describing metric: " + e.msg
    case Ok(m) =>
      if |m| == 0 then "Metric not found: " + name
      else DetailPage(name, GetOr(m, "type", "unknown"), GetOr(m, "sem", "unknown"), GetOr(m, "units", "none"),
                      GetOr(m, "indom", "none"), DetailHelp(m))
  }

  /** Missing metadata fields show their defaults on the page. */
  lemma DetailDefaults(name: string, info: Meta)
    requires |info| > 0
    requires Get(info, "type").None? && Get(info, "sem").None? && Get(info, "units").None? && Get(info, "indom").None?
    ensures MetricDetail(name, Ok(info)) == DetailPage(name, "unknown", "unknown", "none", "none", DetailHelp(info))
  {
  }
}
