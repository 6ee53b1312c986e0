# pcp-mcp core in Dafny

pcp-mcp is an MCP server that gives an assistant read access to Performance
Co-Pilot (PCP) metrics through the pmproxy REST API. This project models the
part of the server that interprets metrics, together with the small pieces of
state around it. Each module covers one area:

- **Extractors** (`extractors.dfy`). Lookups over the normalised
  `{metric: {instances: {id: value}}}` map and the raw pmproxy
  `{values: [{name, instances: [{instance, value}]}]}` reply.
- **Builders** (`builders.dfy`). The CPU, memory, load, disk and network
  summaries, each with its first-match threshold assessment, and the
  per-process list with its sort key and assessment.
- **System tools** (`system_tools.dfy`). The two variants in
  `tools/system.py` that differ from the builders: memory "used" and the
  load keys. Category-to-metric selection, the snapshot tool, and the
  top-N process tool. The top-N tool uses a stable descending sort from
  `sorting.dfy`.
- **Network tools** (`network_tools.dfy`). The metric lists and the
  protocol-health issue list.
- **Metrics tools** (`metrics_tools.dfy`). Instance flattening in
  `query_metrics`, the `search_metrics` mapping, `describe_metric` and its
  unit formatting.
- **Metrics resources** (`metrics_resources.dfy`). The browse and detail
  pages.
- **Catalog** (`catalog.dfy`). The namespace catalogue resource:
  namespaces, running PMDAs and the page text.
- **Errors** (`errors.dfy`). The mapping of every exception kind to the
  message the tool reports.
- **Config** (`config.dfy`). The settings with their defaults, the
  pmproxy URL and the basic-auth pair.
- **Client** (`client.dfy`). The `PCPClient` session and context
  lifecycle, written as a class.
- **Context** (`context.dfy`). Access to the request context, and the
  choice of client for a requested host.
- **Middleware** (`middleware.dfy`). The metadata cache, written as a
  class over a `map`.

Modelling conventions:

- Python dicts whose order matters are `seq<(key, value)>` with a
  first-match `Get`, so "the first instance" and the order of the process
  list mean what they do in Python.
- Python exceptions are the values of `Errors.PyError`. An operation that
  can raise returns a `Result`.
- pmproxy replies and the two-sample rate fetch are parameters. Where
  the request depends on computed metric names, the parameter is a function
  of those names.
- The text of `str()` of a float and of `:.0f` / `:.1f` formatting is a
  formatter parameter.

The helper modules are:

- `Wrappers`: Option and Result.
- `Strings`: join, slicing, decimal rendering and Python string order.
- `Values`: JSON values, dict lookup, `float()` and `int()`.
- `KeySort`: `sorted()` over distinct keys.
- `StableSort`: `list.sort(key=..., reverse=True)`.

## Model

| member | source | states |
|---|---|---|
| Values.Get | src/pcp_mcp/utils/extractors.py:11 | `d.get(k)` is None exactly when no pair has key k, and otherwise returns a value paired with k |
| Values.GetAtKey | src/pcp_mcp/utils/builders.py:211 | in a dict with distinct keys, looking up the key of entry i finds entry i's value |
| Values.ToFloat | src/pcp_mcp/utils/extractors.py:14 | `float(v)` succeeds exactly for numbers and bools and gives their value; None and strings raise |
| Values.ToInt | src/pcp_mcp/utils/builders.py:211 | `int(v)` succeeds exactly for numbers and truncates toward zero |
| Values.Trunc | src/pcp_mcp/utils/builders.py:25 | `int()` of a float is the integer next to it on the side of zero |
| Values.InstancesOf | src/pcp_mcp/utils/extractors.py:11 | `data.get(metric, {}).get("instances", {})`: empty for a missing metric, otherwise the instance map, or empty when that is absent |
| Values.GetOrElse | src/pcp_mcp/utils/extractors.py:40 | `m.get(key) or fallback`: the entry when present and non-empty, otherwise the fallback |
| Extractors.GetFirstValue | src/pcp_mcp/utils/extractors.py:9-15 | the default when there are no instances; otherwise `float()` of the first instance in insertion order |
| Extractors.GetFirstValueTotal | src/pcp_mcp/utils/extractors.py:9-15 | the default for a missing metric or a missing `instances` key; raises exactly when the first instance is not numeric; otherwise that instance's number |
| Extractors.ScalarValueFirstMatch | src/pcp_mcp/utils/extractors.py:18-25 | the first entry with the right name and a non-empty instance list decides; the default when there is no such entry |
| Extractors.GetScalarValue | src/pcp_mcp/utils/extractors.py:18-25 | it raises only when some entry has the requested name and a non-empty instance list |
| Extractors.ScalarInFirstMatch | src/pcp_mcp/utils/extractors.py:20-25 | the same first-match rule for the search loop over the values list |
| Extractors.FirstScalarDefaults | src/pcp_mcp/utils/extractors.py:24 | a missing `value` gives the default, and only None or a string makes `int()` raise |
| Extractors.SumInstances | src/pcp_mcp/utils/extractors.py:28-32 | 0.0 for a missing metric or an empty instance map |
| Extractors.SumValuesTotal | src/pcp_mcp/utils/extractors.py:32 | the sum succeeds exactly when every value is numeric, and then equals the arithmetic total |
| Extractors.SumValuesAppend | src/pcp_mcp/utils/extractors.py:32 | summing two groups of instances adds their sums |
| Extractors.SumValuesNonNegative | src/pcp_mcp/utils/extractors.py:32 | non-negative values have a non-negative sum |
| Extractors.ExtractHelpText | src/pcp_mcp/utils/extractors.py:35-40 | a non-empty `text-help`, else a non-empty `text-oneline`, else the default |
| Extractors.ExtractTimestampAsWritten | src/pcp_mcp/utils/extractors.py:43-49 | the code as written fails exactly for a bare-number timestamp |
| Extractors.FloatTimestampRejected | tests/test_utils.py:106 | the timestamp 1234.567, which the tests expect to be read back, makes the code as written raise |
| Extractors.ExtractTimestamp | src/pcp_mcp/utils/extractors.py:43-49 | a bare number is taken as seconds; every other shape gives what the code as written gives |
| Extractors.TimestampParts | src/pcp_mcp/utils/extractors.py:48-49 | `s + us/1e6` lies in [s, s+1) for microseconds below 1e6; missing fields count as 0 |
| Builders.CpuShares | src/pcp_mcp/utils/builders.py:27-34 | all four shares are 0.0 when the total time is not positive |
| Builders.CpuSharesBounds | src/pcp_mcp/utils/builders.py:27-34 | with a positive total the four shares add up to 100; with non-negative times each lies in [0, 100] |
| Builders.AssessCpuPrecedence | src/pcp_mcp/utils/builders.py:36-45 | I/O wait above 20% wins over everything; the normal case holds exactly when no threshold is crossed; a sample with no CPU time reads as saturated |
| Builders.AssessCpu | src/pcp_mcp/utils/builders.py:36-45 | saturated, user-bound and high-system each imply their own threshold and that every earlier check passed |
| Builders.BuildCpuMetrics | src/pcp_mcp/utils/builders.py:19-54 | the four percentages are the shares of the user, sys, idle and wait.total readings; ncpu is `int()` of the `hinv.ncpu` reading (1 without data); the assessment is that of the shares; it raises exactly when one of the five readings is not numeric |
| Builders.CpuMetricsPercentages | src/pcp_mcp/utils/builders.py:27-34 | the reported percentages add up to 100 when any CPU time was sampled, and each lies in [0, 100] for non-negative readings |
| Builders.Kib | src/pcp_mcp/utils/builders.py:59-64 | a KiB reading converts to a whole number of KiB in bytes, and fails exactly when the reading does |
| Builders.UsedPercent | src/pcp_mcp/utils/builders.py:68-69 | 0.0 when the total is not positive |
| Builders.UsedPercentBounds | src/pcp_mcp/utils/builders.py:68-69 | the used share lies in [0, 100] when 0 ≤ used ≤ total |
| Builders.AssessMemoryOrder | src/pcp_mcp/utils/builders.py:71-78 | heavy swap wins over the usage level; otherwise the level only grows with the usage percentage |
| Builders.AssessMemory | src/pcp_mcp/utils/builders.py:71-78 | normal exactly when swap use is at most half the swap total and usage at most 75%; critical above 90%; elevated between 75% and 90% |
| Builders.BuildMemoryMetrics | src/pcp_mcp/utils/builders.py:57-91 | succeeds exactly when all seven KiB readings convert; total, available, free, cached, buffers and swap total are the KiB readings of their metrics in bytes; used = total − available; swap used = swap total − swap free; the percentage and assessment follow from those |
| Builders.MemoryMetricsUsedPercent | src/pcp_mcp/utils/builders.py:66-69 | the reported used percentage lies in [0, 100] when available memory lies between 0 and the total |
| Builders.AssessLoadMonotone | src/pcp_mcp/utils/builders.py:104-111 | a higher one-minute load never gives a milder assessment |
| Builders.AssessLoad | src/pcp_mcp/utils/builders.py:104-111 | for a non-negative CPU count, normal exactly when the load is at most the CPU count; very high exactly above twice the CPU count; a non-normal verdict carries the load and CPU count |
| Builders.BuildLoadMetrics | src/pcp_mcp/utils/builders.py:94-120 | succeeds exactly when the three averages, runnable, nprocs and ncpu convert; the three averages are the values under integer keys 1, 5 and 15 (0.0 when missing); runnable and nprocs are `int()` of their readings; the assessment compares the 1-minute load with `int(ncpu)` |
| Builders.AssessDiskIsMax | src/pcp_mcp/utils/builders.py:130-137 | the disk level is the larger of the read and write levels at thresholds 100,000,000 and 10,000,000 |
| Builders.AssessDisk | src/pcp_mcp/utils/builders.py:130-137 | low exactly when both rates are at most 10,000,000; heavy exactly when either exceeds 100,000,000, carrying both rates |
| Builders.BuildDiskMetrics | src/pcp_mcp/utils/builders.py:123-145 | succeeds exactly when the four readings convert; the byte and operation rates are the first values of `disk.all.read_bytes`, `write_bytes`, `read` and `write`, and the assessment is that of the byte rates |
| Builders.AssessNetworkLevel | src/pcp_mcp/utils/builders.py:150-161 | the network level is the disk threshold table applied to in+out, so it is symmetric in in and out |
| Builders.AssessNetwork | src/pcp_mcp/utils/builders.py:150-161 | low exactly when in+out is at most 10,000,000; high exactly above 100,000,000, carrying the total |
| Builders.BuildNetworkMetrics | src/pcp_mcp/utils/builders.py:148-169 | succeeds exactly when the four interface sums convert; the byte and packet rates are sums over all interfaces of their metrics, and the assessment is that of the byte rates |
| Builders.CalculateCpuPercent | src/pcp_mcp/utils/builders.py:186-194 | None exactly when CPU is not the sort key and there is no utime data; otherwise ten times the figure is utime+stime; it raises exactly when it does not return None and the utime or stime entry is not numeric |
| Builders.CalculateIoMetrics | src/pcp_mcp/utils/builders.py:197-205 | both None exactly when I/O is not the sort key and there is no read data; otherwise `float()` of each side; it raises exactly when it does not return None and the read or write entry is not numeric |
| Builders.BuildProcessInfo | src/pcp_mcp/utils/builders.py:208-236 | None for a pid ≤ 0; for a positive pid a process is built exactly when the rss entry and the CPU and I/O calculators convert; it raises exactly when the pid does not convert or one of those fails; otherwise pid > 0; command is `str()` of the cmd entry (default "unknown"); cmdline is the first 200 characters of `str()` of the args entry (default the command); rss is the KiB entry × 1024; rss percent is `round(…, 1)` of `RssPercent` of it; the CPU and I/O figures are `round(…, 1)` of those of their calculators, with their None rules |
| Builders.ExtractProcessDataSources | src/pcp_mcp/utils/builders.py:172-183 | a metric missing from the response gives an empty instance map for its source |
| Builders.RssPercent | src/pcp_mcp/utils/builders.py:218 | the percentage times the total memory is rss × 100; 0 when the total is not positive |
| Builders.FilterMapPrefixError | src/pcp_mcp/utils/builders.py:242-249 | an exception raised for one pid ends the whole loop with that exception |
| Builders.FilterMapStep | src/pcp_mcp/utils/builders.py:244-247 | one loop step appends the built process when there is one |
| Builders.CollectPresent | src/pcp_mcp/utils/builders.py:242-249 | the append loop computes the order-preserving filter-map of its ids |
| Builders.BuildProcessList | src/pcp_mcp/utils/builders.py:239-249 | the list is the processes built from the pid instances, in pid-map order |
| Builders.FilterMapCount | src/pcp_mcp/utils/builders.py:242-249 | a successful loop keeps exactly as many results as there are ids with a result |
| Builders.BuildAllWellFormed | src/pcp_mcp/utils/builders.py:208-249 | every listed process has pid > 0, and its CPU and I/O figures are None exactly when they are not the sort key and no data was fetched |
| Builders.BuildAllCount | src/pcp_mcp/utils/builders.py:239-249 | the list holds one entry per pid instance with a positive pid, so it is never longer than the pid map |
| Builders.PresentIffPositive | src/pcp_mcp/utils/builders.py:211-213 | a successful build yields a process exactly when the pid is positive |
| Builders.SortKey | src/pcp_mcp/utils/builders.py:252-260 | cpu gives the CPU figure; memory gives rss bytes; io gives read plus write bytes with a missing figure counted as 0; any other key gives 0 |
| Builders.SortKeyMissingAsZero | src/pcp_mcp/utils/builders.py:252-260 | a missing CPU figure, or missing I/O figures, count as 0 |
| Builders.AssessProcesses | src/pcp_mcp/utils/builders.py:263-278 | "No processes found" for an empty list; it raises exactly when sorting by CPU and the top process has no CPU figure; it describes the top process: CPU-bound or top CPU with its CPU figure, top memory with its rss percent, top I/O with read + write (None as 0), or top process for any other key |
| Builders.Round1Props | src/pcp_mcp/utils/builders.py:231-235 | `round(x, 1)` moves a figure by at most 0.05, keeps 0.0 and never reverses an order |
| Builders.CpuBoundReadsRounded | src/pcp_mcp/utils/builders.py:268-272 | the CPU-bound test reads the rounded figure: 200.04% on four CPUs is stored as 200.0% and is not CPU-bound |
| Builders.AssessProcessesTopOnly | src/pcp_mcp/utils/builders.py:263-278 | only the first process matters, and it is CPU-bound exactly when its CPU figure exceeds ncpu × 50 |
| SystemTools.CounterMetricsInGroups | src/pcp_mcp/tools/system.py:27-77 | every counter metric belongs to the cpu, disk or network group |
| SystemTools.CounterMetricsAreRated | src/pcp_mcp/tools/system.py:27-77 | no memory, load or `hinv.ncpu` metric is a counter |
| SystemTools.SelectedMetricsMembers | src/pcp_mcp/tools/system.py:118-124 | a metric is requested exactly when it belongs to the group of a known requested category |
| SystemTools.SelectedMetrics | src/pcp_mcp/tools/system.py:118-124 | only unknown categories select no metric |
| SystemTools.DefaultSelection | src/pcp_mcp/tools/system.py:118-124 | no categories means cpu, memory, disk, network and load, concatenated in that order |
| SystemTools.SnapshotMetricNames | src/pcp_mcp/tools/system.py:118-124 | the extend loop builds the concatenation of the requested groups |
| SystemTools.GetSystemSnapshot | src/pcp_mcp/tools/system.py:91-151 | a fetch failure is reported through the error mapping; a result has one section per requested category; it fails only when a requested section cannot be built |
| SystemTools.SystemBuildMemoryMetrics | src/pcp_mcp/tools/system.py:290-324 | succeeds exactly when all eight KiB readings convert; every byte field is the KiB reading of its metric in bytes, used memory being `mem.util.used`; the percentage is 0.0 when the total is 0 |
| SystemTools.MemoryBuildersSucceedTogether | src/pcp_mcp/tools/system.py:290-324 | the system memory builder succeeds exactly when the other does and `mem.util.used` converts |
| SystemTools.MemoryBuildersAgree | src/pcp_mcp/tools/system.py:290-324 | the two memory builders differ only in used memory and what follows from it, and agree when used = total − available |
| SystemTools.SystemLoadAt | src/pcp_mcp/tools/system.py:329-333 | the string key "N minute" wins, then the integer key N, then 0.0 |
| SystemTools.SystemBuildLoadMetrics | src/pcp_mcp/tools/system.py:327-353 | succeeds exactly when the three averages, runnable, nprocs and ncpu convert; each of the three averages uses its string-key-then-integer-key fallback; runnable and nprocs are `int()` of their readings; the assessment compares the 1-minute load with `int(ncpu)` |
| SystemTools.LoadBuildersAgree | src/pcp_mcp/tools/system.py:327-353 | without the "N minute" keys the two load builders agree; with the "1 minute" key the system builder reads the 1-minute load from it |
| SystemTools.ProcessMetricNames | src/pcp_mcp/tools/system.py:181-189 | the info and memory groups are always requested |
| SystemTools.ProcessMetricSelection | src/pcp_mcp/tools/system.py:181-189 | the cpu or io group is added exactly when it is the sort key |
| SystemTools.TopNIsTop | src/pcp_mcp/tools/system.py:209-210 | the result has min(limit, n) entries, is descending, and no left-out process has a larger sort key than a kept one |
| SystemTools.TopN | src/pcp_mcp/tools/system.py:209-210 | the result has min(limit, n) entries, all taken from the input |
| SystemTools.TopNStable | src/pcp_mcp/tools/system.py:209-210 | processes with equal sort keys keep their original order |
| SystemTools.RoundedTieKeepsOrder | src/pcp_mcp/tools/system.py:209-210 | the sort reads the rounded figures: 1.01% and 1.04% both sort as 1.0%, so the first in pid order is kept by a cut to one |
| SystemTools.GetProcessTop | src/pcp_mcp/tools/system.py:154-223 | fetch errors are reported through the error mapping, while `int()`, build and assessment errors propagate as raised; the tool succeeds exactly when both fetches, both `int()` conversions, the build and the assessment succeed; ncpu and physmem come from the raw sample with default 1; total memory is physmem × 1024; the list is the top `limit` of the built processes; the assessment is that of the list |
| StableSort.SortDescCorrect | src/pcp_mcp/tools/system.py:209 | `sort(reverse=True)` is descending, a permutation, and stable |
| KeySort.SortByKeySorted | src/pcp_mcp/resources/catalog.py:113 | `sorted()` is strictly increasing, holds only input elements, and keeps every input key |
| KeySort.SortByKeyElements | src/pcp_mcp/middleware.py:41 | with distinct keys `sorted()` holds exactly the input's elements |
| KeySort.SortedUnique | src/pcp_mcp/resources/catalog.py:113 | two strictly sorted lists with the same elements are equal |
| NetworkTools.AllMetrics | src/pcp_mcp/tools/network.py:114 | the request lists 15 metrics, with `network.tcp.currestab` fifth |
| NetworkTools.CountersByPosition | src/pcp_mcp/tools/network.py:50-65 | the counters are exactly the requested metrics except the fifth |
| NetworkTools.CountersAreRequested | src/pcp_mcp/tools/network.py:50-65 | every counter is requested and none is `network.tcp.currestab`, which is requested but not a counter |
| NetworkTools.OthersRated | src/pcp_mcp/tools/network.py:25-65 | every requested metric other than `network.tcp.currestab` is a counter |
| NetworkTools.ErrorInterfacesMembers | src/pcp_mcp/tools/network.py:173-175 | an interface is named exactly when one of its error or drop rates is positive |
| NetworkTools.ErrorInterfacesAppend | src/pcp_mcp/tools/network.py:173-175 | the named interfaces keep their input order |
| NetworkTools.IssueTexts | src/pcp_mcp/tools/network.py:157-183 | one text per issue, in order |
| NetworkTools.Summary | src/pcp_mcp/tools/network.py:181-183 | the summary is the normal text exactly when there are no issues |
| NetworkTools.IssuesOrdered | src/pcp_mcp/tools/network.py:157-179 | issues come in the fixed order retransmits, failures, resets, UDP, interfaces, at most one of each |
| NetworkTools.Issues | src/pcp_mcp/tools/network.py:157-179 | no issue is reported exactly when every rate is at most 10/s and no interface has errors or drops |
| NetworkTools.ErrorInterfacesEmpty | src/pcp_mcp/tools/network.py:173-177 | the error-interface list is empty exactly when no interface has errors or drops |
| NetworkTools.RetransmitThresholds | src/pcp_mcp/tools/network.py:159-162 | heavy exactly above 100, moderate exactly in (10, 100], never both |
| NetworkTools.RateThresholds | src/pcp_mcp/tools/network.py:164-171 | connection failures, resets and UDP errors are each reported exactly above 10 |
| NetworkTools.InterfaceIssue | src/pcp_mcp/tools/network.py:173-179 | the interface issue is last, and is present exactly when some interface has errors |
| NetworkTools.AssessNetworkStats | src/pcp_mcp/tools/network.py:155-183 | the append-built issue list gives the summary of the issue list |
| MetricsTools.MetricValueOf | src/pcp_mcp/tools/metrics.py:47-55 | name defaults to "" and value to None; instance -1 or a missing instance becomes None, any other id is kept |
| MetricsTools.InstanceValuesAt | src/pcp_mcp/tools/metrics.py:49-55 | one value per instance of a metric, in order |
| MetricsTools.Flatten | src/pcp_mcp/tools/metrics.py:41-56 | the output count is the total number of instances |
| MetricsTools.FlattenAt | src/pcp_mcp/tools/metrics.py:41-56 | instance j of metric i sits at offset (instances before metric i) + j |
| MetricsTools.QueryMetrics | src/pcp_mcp/tools/metrics.py:36-56 | the nested loops compute the flattening; a fetch error goes through the error mapping |
| MetricsTools.SearchMetrics | src/pcp_mcp/tools/metrics.py:77-88 | one result per metric, in order, with name default "" and the extracted help text |
| MetricsTools.UnitsTextShape | src/pcp_mcp/tools/metrics.py:126-141 | one component is returned alone; no unit information gives "none" |
| MetricsTools.UnitsText | src/pcp_mcp/tools/metrics.py:126-141 | the unit text is never empty |
| MetricsTools.FormatUnits | src/pcp_mcp/tools/metrics.py:126-141 | the append loop computes the unit text |
| MetricsTools.DescribeMetric | src/pcp_mcp/tools/metrics.py:108-123 | empty info raises "Metric not found: name"; name, type and semantics are the `name`, `type` and `sem` entries, defaulting to the requested name and "unknown"; units, help text and indom come from the info |
| MetricsResources.MetricLine | src/pcp_mcp/resources/metrics.py:46-51 | name defaults to "unknown"; a line without help has no ": " suffix |
| MetricsResources.MetricLinesAt | src/pcp_mcp/resources/metrics.py:45-51 | one line per metric, in order |
| MetricsResources.BrowseLinesShape | src/pcp_mcp/resources/metrics.py:43-54 | a header, the first 50 metrics in order, and a trailing "... and n−50 more metrics" line exactly when n > 50 |
| MetricsResources.BrowseHelpReversed | src/pcp_mcp/resources/metrics.py:47 | browsing prefers `text-oneline`, the reverse of the extractor's order |
| MetricsResources.BrowseMetrics | src/pcp_mcp/resources/metrics.py:33-56 | a failure gives an "Error searching metrics" text rather than an error; an empty result gives the not-found text; otherwise the lines joined by newlines |
| MetricsResources.DetailHelp | src/pcp_mcp/resources/metrics.py:79 | `text-help`, else `text-oneline`, else "No description available" |
| MetricsResources.DetailHelpVsExtract | src/pcp_mcp/resources/metrics.py:79 | it agrees with the extractor unless `text-oneline` is present and empty |
| MetricsResources.MetricDetail | src/pcp_mcp/resources/metrics.py:65-97 | an error text, the not-found text for empty info, otherwise the page with type and semantics "unknown" and units and indom "none" by default |
| MetricsResources.DetailDefaults | src/pcp_mcp/resources/metrics.py:75-78 | info without those fields shows all four defaults |
| Catalog.NameCandidatesMembers | src/pcp_mcp/resources/catalog.py:113-115 | a namespace candidate is the text before the first "." of a non-empty metric name, and every such text is a candidate |
| Catalog.NamespacesCorrect | src/pcp_mcp/resources/catalog.py:113-115 | the namespaces are sorted and duplicate-free, contain no ".", and are exactly the prefixes of the non-empty names |
| Catalog.Namespaces | src/pcp_mcp/resources/catalog.py:113-115 | the namespaces are in increasing order |
| Catalog.NamespacesUnique | src/pcp_mcp/resources/catalog.py:113-115 | any sorted list of exactly those prefixes is the namespace list |
| Catalog.HintIsSmallest | src/pcp_mcp/resources/catalog.py:216 | the hint is the smallest namespace, or "kernel" exactly when no metric has a name |
| Catalog.RunningInMembers | src/pcp_mcp/resources/catalog.py:119-124 | an agent is listed exactly when its instance id is present, not -1, and its status is 0 |
| Catalog.RunningAgentsMembers | src/pcp_mcp/resources/catalog.py:118-124 | the same rule over all metrics of the status reply |
| Catalog.CollectActivePmdas | src/pcp_mcp/resources/catalog.py:118-124 | the nested append loop computes the running agents in order |
| Catalog.DocsNeverUnknown | src/pcp_mcp/resources/catalog.py:139-181 | no built-in description is the unknown-namespace text |
| Catalog.UnknownNamespaceIff | src/pcp_mcp/resources/catalog.py:183-185 | a namespace gets the unknown text exactly when it has no built-in description |
| Catalog.NamespaceLinesAppend | src/pcp_mcp/resources/catalog.py:183-185 | the `+=` loop gives the lines of a longer list as the lines of its parts |
| Catalog.PmdaSection | src/pcp_mcp/resources/catalog.py:187-190 | "Unable to enumerate PMDAs" for no agents, otherwise the ids joined by ", " |
| Catalog.PageListsNamespaces | src/pcp_mcp/resources/catalog.py:183-185 | the page contains the line of every namespace |
| Catalog.PageShowsPmdas | src/pcp_mcp/resources/catalog.py:187-190 | the page contains the PMDA section |
| Catalog.RenderPage | src/pcp_mcp/resources/catalog.py:129-232 | the step-by-step build gives the page text of the header, namespace lines and guide |
| Catalog.NamespacesResult | src/pcp_mcp/resources/catalog.py:109-127 | search or fetch failures go through the error mapping for "discovering namespaces"; the page is served exactly when both replies arrived |
| Catalog.MetricNamespaces | src/pcp_mcp/resources/catalog.py:99-233 | the resource computed by its loops equals the specification of the resource |
| Catalog.MetricNamespacesAsWritten | src/pcp_mcp/resources/catalog.py:109 | awaiting the synchronous `get_client` result always raises, before the `try` |
| Catalog.AwaitedClientNeverServes | src/pcp_mcp/resources/catalog.py:109 | with both pmproxy replies available the code as written raises an error that is not a ToolError, while the intended resource serves the page |
| Errors.HandlePcpError | src/pcp_mcp/errors.py:21-47 | always a ToolError; a connect error gives the fixed "Cannot connect" text; a PCP connection error keeps its message |
| Errors.OperationNamed | src/pcp_mcp/errors.py:34-47 | 400, 404, timeout and unclassified errors name the failed operation |
| Errors.BodyReported | src/pcp_mcp/errors.py:34-39 | every HTTP status except 404 reports the response body |
| Errors.StatusCodeReported | src/pcp_mcp/errors.py:38-39 | any other status shows its decimal code |
| Errors.NotFoundIgnoresBody | src/pcp_mcp/errors.py:36-37 | a 404 message depends only on the operation |
| Errors.ExceptionTextKept | src/pcp_mcp/errors.py:42-47 | metric-not-found and unclassified errors keep the exception text |
| Strings.DecimalRoundTrip | src/pcp_mcp/config.py:43 | `str(n)` of a natural number reads back as n |
| Strings.IntToDecimalInjective | src/pcp_mcp/errors.py:39 | distinct codes render to distinct texts |
| Config.BaseUrlReadBack | src/pcp_mcp/config.py:39-43 | the URL starts with "https://" exactly when TLS is on; the host and the port can be read back from it |
| Config.DefaultBaseUrl | src/pcp_mcp/config.py:28-43 | with the default fields the URL is "http://localhost:44322" and there is no auth |
| Config.Auth | src/pcp_mcp/config.py:45-50 | the credentials pair exactly when both are non-empty, otherwise None |
| Client.Checked | src/pcp_mcp/client.py:49-50 | only a 2xx status passes the body on; any other status raises an HTTP status error with that status and body |
| Client.FirstOrEmpty | src/pcp_mcp/client.py:138-139 | the first metric, or {} for an empty list |
| Client.PCPClient.constructor | src/pcp_mcp/client.py:23-36 | a new client has no session and no context; target host "localhost", no auth and timeout 30.0 by default |
| Client.PCPClient.Enter | src/pcp_mcp/client.py:38-51 | the session opens; the context id is set only from a 2xx reply that carries `context`; otherwise the error is raised and the id is kept |
| Client.PCPClient.Exit | src/pcp_mcp/client.py:53-62 | the session closes, a second exit changes nothing, and the context id is kept |
| Client.PCPClient.Fetch | src/pcp_mcp/client.py:74-94 | "Client not connected" without a session; otherwise the current context and the names joined by "," are sent |
| Client.PCPClient.Search | src/pcp_mcp/client.py:96-116 | the not-connected guard; the reply's `metrics`, or [] when absent |
| Client.PCPClient.Describe | src/pcp_mcp/client.py:118-139 | the not-connected guard; the first metric of the reply, or {} |
| Client.Lifecycle | src/pcp_mcp/client.py:38-94 | requests fail before enter and after exit; during the session a fetch names the new context; exit keeps the id |
| Context.ValidateContext | src/pcp_mcp/context.py:18-28 | "Server context not available" exactly when the request or lifespan context is missing |
| Context.AccessorsAgree | src/pcp_mcp/context.py:31-64 | client and settings are available together and come from the same lifespan context; otherwise both fail with the same error |
| Context.GetClient | src/pcp_mcp/context.py:31-46 | the lifespan client when the request context and its lifespan context exist, the context-unavailable error otherwise |
| Context.GetSettings | src/pcp_mcp/context.py:49-64 | the lifespan settings when the request context and its lifespan context exist, the context-unavailable error otherwise |
| Context.WithClientForHost | src/pcp_mcp/context.py:67-104 | no host or the target host yields the lifespan client; a denied host fails before any client exists; any other host gets one new client with the configured URL, auth and timeout, entered before it is yielded and exited once; a failed enter yields nothing |
| Middleware.MakeCacheKey | src/pcp_mcp/middleware.py:39-41 | the key carries the tool name |
| Middleware.NoArgumentsKey | src/pcp_mcp/middleware.py:41 | missing arguments and empty arguments give the same key |
| Middleware.KeyIgnoresOrder | src/pcp_mcp/middleware.py:41 | the key does not depend on argument order |
| Middleware.KeySeparatesCalls | src/pcp_mcp/middleware.py:39-41 | equal keys mean the same tool with the same arguments |
| Middleware.MetricCacheMiddleware.constructor | src/pcp_mcp/middleware.py:28-37 | the cache starts empty |
| Middleware.MetricCacheMiddleware.OnCallTool | src/pcp_mcp/middleware.py:43-66 | other tools and calls with a truthy host are forwarded and leave the cache alone; a hit returns the stored result without forwarding; a miss forwards once and stores the result; when the next handler raises, the exception is passed on and nothing is stored |
| Middleware.MetricCacheMiddleware.CacheSize | src/pcp_mcp/middleware.py:68-71 | the size is 0 exactly when the cache is empty |
| Middleware.MetricCacheMiddleware.ClearCache | src/pcp_mcp/middleware.py:73-75 | the cache becomes empty |
| Middleware.RepeatedCall | src/pcp_mcp/middleware.py:43-71 | a repeated call is forwarded once, both calls get the first result, and one entry is stored |
| Middleware.FailedCallRetried | src/pcp_mcp/middleware.py:43-66 | a call whose next handler raises passes the exception on and is not cached, so the same call made again is forwarded again |
| Middleware.DistinctCalls | src/pcp_mcp/middleware.py:43-71 | calls with different arguments are each forwarded and stored separately |

## Left out

- MetricsTools.MetricValueOf: keeps an integer instance id as given. The output model declares `instance: str | None` (src/pcp_mcp/models.py:15), and its pydantic validation, which would reject an integer id and make `query_metrics` fail, is not modelled.
- HTTP transport, httpx, async scheduling and `asyncio.sleep` are not modelled. Each pmproxy reply, or transport failure, is a parameter. The text of an httpx status error is part of that reply.
- The two-sample counter-to-rate fetch (`fetch_with_rates`) and the context-expiry retry are not modelled. Neither is defined in `src/pcp_mcp/client.py`; the rate fetch is a parameter of the snapshot tool.
- The host allow-list (`is_host_allowed`) and the `verify` argument that `src/pcp_mcp/context.py:91,102` use are not defined in `config.py` or `client.py`. The allow-list is a predicate parameter, and `verify` is left out.
- `round(x, 1)` in the CPU, memory, disk and network snapshots, `round(x, 2)` for the load averages, and the `:.0f` / `:.1f` / `/1e6` formatting of numbers in assessment texts, are not modelled. Those snapshots state their figures before rounding; no later step reads them. Values are `real`. Formatting is a formatter parameter, and the assessments are categories with their literal texts. The process figures are rounded (`Builders.Round1`), because the sort, the cut to `limit` and the CPU-bound test read the rounded values.
- Builders.Round1: rounds exact reals, sending a value exactly halfway between two tenths to the even tenth. Python rounds the binary float nearest to the value, so for such decimal halves (0.35 is stored just below 0.35 and becomes 0.3) the two can differ by 0.1.
- Builders.BuildCpuMetrics: the percentages are stated before rounding.
- Builders.BuildLoadMetrics: the three load averages are stated before `round(x, 2)`.
- SystemTools.SystemBuildLoadMetrics: the three load averages are stated before `round(x, 2)`.
- Python `float()` and `int()` of numeric strings are not modelled. Every string is treated as non-numeric and raises.
- `list.sort` sorts in place; the model sorts a value and slices it (`SystemTools.TopN`). Python's sort is library code, so its contract (stable, descending, a permutation) is proved of an insertion sort.
- The network tool body (`src/pcp_mcp/tools/network.py:74-152`) is not modelled. It depends on `build_tcp_stats`, `build_udp_stats` and `build_interface_errors`, which are not defined in `utils/builders.py`. The assessment takes their results as inputs.
- The private `_get_first_value`, `_get_scalar_value`, `_sum_instances`, `_build_cpu/disk/network_metrics`, `_build_process_list`, `_get_sort_key` and `_assess_processes` of `src/pcp_mcp/tools/system.py` are not modelled separately. They repeat the extractor and builder code, so the model uses one definition for both.
- The TTL expiry and maximum-size eviction of the middleware cache (a `TTLCache`) are not modelled. The cache is a plain map.
- Middleware.MakeCacheKey: the key is the pair of tool name and sorted argument items, not the `str()` of that pair.
- The lifespan context is a dict in the source; a missing "client" or "settings" entry would raise KeyError. The model holds both entries.
- Loading settings from the environment (pydantic) is not modelled; a `Settings` value is the loaded result.
- The common-metrics catalogue resource (`src/pcp_mcp/resources/catalog.py:21-97`) is fixed text and not modelled.
- Prompts, icons, the server entry point, CLI parsing, the health resource and the error-handling decorator are glue around the modelled functions.

## Findings

| source | as written | input that shows it | evidently intended | confidence | as-written member | corrected member |
|---|---|---|---|---|---|---|
| src/pcp_mcp/utils/extractors.py:48-49 | `ts.get("s", 0) + ts.get("us", 0) / 1e6` treats the timestamp as a dict | `{"timestamp": 1234.567}`: a float has no `.get`, so AttributeError; tests/test_utils.py:106 expects 1234.567 | a bare number is the time in seconds | not executed | Extractors.ExtractTimestampAsWritten, Extractors.FloatTimestampRejected | Extractors.ExtractTimestamp |
| src/pcp_mcp/resources/catalog.py:109 | `client = await get_client(ctx)`, where `get_client` (src/pcp_mcp/context.py:31-46) is a plain function that returns the client | any request with a valid context: awaiting a `PCPClient` raises TypeError before the `try`, so the page is never served and the error bypasses the error mapping | `client = get_client(ctx)`, as in the other resources | not executed | Catalog.MetricNamespacesAsWritten, Catalog.AwaitedClientNeverServes | Catalog.NamespacesResult, Catalog.MetricNamespaces |
