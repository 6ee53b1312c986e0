/**
  The live namespace catalog of `resources/catalog.py` (`pcp://namespaces`):
  the top-level namespaces of every metric the server knows, the PMDAs whose
  `pmcd.agent.status` instance reports 0 (running), and the markdown page
  that lists both with a short description per namespace.
*/
module Catalog {
  import opened Wrappers
  import opened Strings
  import opened Errors
  import opened Values
  import opened KeySort

  // -------------------------------------------------------------- namespaces

  /** The sort key of a namespace is the namespace itself. */
  function Id(s: string): string
  {
    s
  }

  /** `m.get("name", "")` when it is non-empty (metrics without a name are skipped). */
  function NameOf(m: Meta): string
  {
    GetOrElse(m, "name", "")
  }

  /** The top-level namespace of each named metric, in search order and with repeats. */
  function NameCandidates(ms: seq<Meta>): seq<string>
  {
    if |ms| == 0 then []
    else
      var last := ms[|ms| - 1];
      NameCandidates(ms[..|ms| - 1]) + (if NameOf(last) != "" then [BeforeFirst(NameOf(last), '.')] else [])
  }

  /** `ns` is the part before the first dot of the name of some named metric. */
  ghost predicate NamespaceOf(ms: seq<Meta>, ns: string)
  {
    exists m :: m in ms && NameOf(m) != "" && BeforeFirst(NameOf(m), '.') == ns
  }

  lemma {:induction false} NameCandidatesMembers(ms: seq<Meta>)
    ensures forall ns :: ns in NameCandidates(ms) <==> NamespaceOf(ms, ns)
  {
    if |ms| > 0 {
      var init, last := ms[..|ms| - 1], ms[|ms| - 1];
      NameCandidatesMembers(init);
      assert ms == init + [last];
      forall ns ensures ns in NameCandidates(ms) <==> NamespaceOf(ms, ns) {
        if NamespaceOf(ms, ns) {
          var m :| m in ms && NameOf(m) != "" && BeforeFirst(NameOf(m), '.') == ns;
          if m in init {
            assert NamespaceOf(init, ns);
          } else {
            assert m == last;
          }
        }
        if ns in NameCandidates(init) {
          var m :| m in init && NameOf(m) != "" && BeforeFirst(NameOf(m), '.') == ns;
          assert m in ms;
        }
      }
    }
  }

  /** `sorted({m.get("name", "").split(".")[0] for m in all_metrics if m.get("name")})`. */
  function Namespaces(ms: seq<Meta>): (r: seq<string>)
    ensures SortedByKey(r, Id)
  {
    SortByKeySorted(NameCandidates(ms), Id);
    SortByKey(NameCandidates(ms), Id)
  }

  /**
    The namespaces are strictly increasing (so each appears once), hold no
    dot, and are exactly the namespaces of the named metrics.
  */
  lemma NamespacesCorrect(ms: seq<Meta>)
    ensures SortedByKey(Namespaces(ms), Id)
    ensures forall i, j | 0 <= i < j < |Namespaces(ms)| :: Namespaces(ms)[i] != Namespaces(ms)[j]
    ensures forall ns :: ns in Namespaces(ms) <==> NamespaceOf(ms, ns)
    ensures forall ns | ns in Namespaces(ms) :: '.' !in ns
  {
    var cands := NameCandidates(ms);
    var nss := Namespaces(ms);
    SortByKeySorted(cands, Id);
    NameCandidatesMembers(ms);
    forall i, j | 0 <= i < j < |nss| ensures nss[i] != nss[j] {
      assert Less(Id(nss[i]), Id(nss[j]));
      LessIrreflexive(nss[i]);
    }
    forall ns ensures ns in nss <==> NamespaceOf(ms, ns) {
      if ns in cands {
        var z :| z in nss && Id(z) == Id(ns);
      }
    }
  }

  /** Any strictly increasing list of exactly these namespaces is the one the page lists. */
  lemma NamespacesUnique(ms: seq<Meta>, other: seq<string>)
    requires SortedByKey(other, Id)
    requires forall ns :: ns in other <==> NamespaceOf(ms, ns)
    ensures other == Namespaces(ms)
  {
    NamespacesCorrect(ms);
    SortedUnique(other, Namespaces(ms), Id);
  }

  /** The namespace suggested in the discovery workflow: the first namespace, or "kernel". */
  function Hint(namespaces: seq<string>): string
  {
    if |namespaces| > 0 then namespaces[0] else "kernel"
  }

  /** The suggested namespace is the smallest one on the system, when there is any. */
  lemma HintIsSmallest(ms: seq<Meta>)
    ensures |Namespaces(ms)| > 0 ==> Hint(Namespaces(ms)) in Namespaces(ms)
    ensures forall ns | ns in Namespaces(ms) && ns != Hint(Namespaces(ms)) :: Less(Hint(Namespaces(ms)), ns)
    ensures |Namespaces(ms)| == 0 <==> Hint(Namespaces(ms)) == "kernel" && forall m | m in ms :: NameOf(m) == ""
  {
    var nss := Namespaces(ms);
    NamespacesCorrect(ms);
    forall ns | ns in nss && ns != Hint(nss) ensures Less(Hint(nss), ns) {
      var k :| 0 <= k < |nss| && nss[k] == ns;
      assert Less(Id(nss[0]), Id(nss[k]));
    }
    if |nss| > 0 {
      assert nss[0] in nss;
      var m :| m in ms && NameOf(m) != "" && BeforeFirst(NameOf(m), '.') == nss[0];
    } else {
      forall m | m in ms ensures NameOf(m) == "" {
        if NameOf(m) != "" {
          assert NamespaceOf(ms, BeforeFirst(NameOf(m), '.'));
        }
      }
    }
  }

  // ----------------------------------------------------------- active PMDAs

  /** An instance of `pmcd.agent.status` for a running agent: an id other than -1 and a status equal to 0. */
  predicate Running(inst: RawInstance)
  {
    inst.instance.Some? && inst.instance.value != IdInt(-1) && inst.value.Some? && EqualsZero(inst.value.value)
  }

  /** `str(instance_id)` of the running agents among `insts`, in order. */
  function RunningIn(insts: seq<RawInstance>): seq<string>
  {
    if |insts| == 0 then []
    else
      var last := insts[|insts| - 1];
      RunningIn(insts[..|insts| - 1]) + (if Running(last) then [InstIdStr(last.instance.value)] else [])
  }

  /** The running agents of every metric of the response, metric by metric. */
  function RunningAgents(values: seq<RawMetric>): seq<string>
  {
    if |values| == 0 then [] else RunningAgents(values[..|values| - 1]) + RunningIn(values[|values| - 1].instances)
  }

  /** Instance `j` of metric `i` is running and its id reads `s`. */
  ghost predicate ReportedRunning(values: seq<RawMetric>, s: string)
  {
    exists i, j :: 0 <= i < |values| && 0 <= j < |values[i].instances|
      && Running(values[i].instances[j]) && InstIdStr(values[i].instances[j].instance.value) == s
  }

  lemma {:induction false} RunningInMembers(insts: seq<RawInstance>)
    ensures forall s :: s in RunningIn(insts) <==>
              exists j :: 0 <= j < |insts| && Running(insts[j]) && InstIdStr(insts[j].instance.value) == s
  {
    if |insts| > 0 {
      var init := insts[..|insts| - 1];
      RunningInMembers(init);
      forall s | exists j :: 0 <= j < |insts| && Running(insts[j]) && InstIdStr(insts[j].instance.value) == s
        ensures s in RunningIn(insts)
      {
        var j :| 0 <= j < |insts| && Running(insts[j]) && InstIdStr(insts[j].instance.value) == s;
        if j < |insts| - 1 {
          assert init[j] == insts[j];
        }
      }
      forall s | s in RunningIn(init)
        ensures exists j :: 0 <= j < |insts| && Running(insts[j]) && InstIdStr(insts[j].instance.value) == s
      {
        var j :| 0 <= j < |init| && Running(init[j]) && InstIdStr(init[j].instance.value) == s;
        assert insts[j] == init[j];
      }
    }
  }

  /** An agent is listed exactly when some instance of the status response reports it running. */
  lemma {:induction false} RunningAgentsMembers(values: seq<RawMetric>)
    ensures forall s :: s in RunningAgents(values) <==> ReportedRunning(values, s)
  {
    if |values| > 0 {
      var n := |values|;
      var init := values[..n - 1];
      RunningAgentsMembers(init);
      RunningInMembers(values[n - 1].instances);
      forall s ensures s in RunningAgents(values) <==> ReportedRunning(values, s) {
        if ReportedRunning(values, s) {
          var i, j :| 0 <= i < n && 0 <= j < |values[i].instances|
            && Running(values[i].instances[j]) && InstIdStr(values[i].instances[j].instance.value) == s;
          if i < n - 1 {
            assert init[i] == values[i];
            assert ReportedRunning(init, s);
          }
        }
        if s in RunningAgents(init) {
          var i, j :| 0 <= i < |init| && 0 <= j < |init[i].instances|
            && Running(init[i].instances[j]) && InstIdStr(init[i].instances[j].instance.value) == s;
          assert values[i] == init[i];
        }
        if s in RunningIn(values[n - 1].instances) {
          var j :| 0 <= j < |values[n - 1].instances| && Running(values[n - 1].instances[j])
            && InstIdStr(values[n - 1].instances[j].instance.value) == s;
        }
      }
    }
  }

  /** The loops over `pmda_status["values"]` and their `instances`. */
  method CollectActivePmdas(status: RawResponse) returns (active: seq<string>)
    ensures active == RunningAgents(status.values)
  {
    var values := status.values;
    active := [];
    var i := 0;
    while i < |values|
      invariant 0 <= i <= |values|
      invariant active == RunningAgents(values[..i])
    {
      var insts := values[i].instances;
      var j := 0;
      while j < |insts|
        invariant 0 <= j <= |insts|
        invariant active == RunningAgents(values[..i]) + RunningIn(insts[..j])
      {
        var inst := insts[j];
        if inst.instance.Some? && inst.instance.value != IdInt(-1) && inst.value.Some? && EqualsZero(inst.value.value) {
          active := active + [InstIdStr(inst.instance.value)];
        }
        assert insts[..j + 1][..j] == insts[..j];
        j := j + 1;
      }
      assert insts[..j] == insts;
      assert values[..i + 1][..i] == values[..i];
      i := i + 1;
    }
    assert values[..i] == values;
  }

  // ------------------------------------------------------------ descriptions

  /** The built-in one-line descriptions of well-known namespaces. */
  const NamespaceDocs: seq<(string, string)> :=
    [
      ("kernel", "System-wide kernel statistics (CPU, load, interrupts, uptime)"),
      ("mem", "Memory subsystem (physmem, swap, cache, buffers, NUMA)"),
      ("disk", "Disk I/O (aggregates, per-device, partitions, device mapper)"),
      ("network", "Network interfaces and protocols (TCP, UDP, IP)"),
      ("proc", "Per-process metrics \U{26A0}\U{FE0F} Use get_process_top instead of raw queries"),
      ("hinv", "Hardware inventory (ncpu, physmem, architecture - static info)"),
      ("pmcd", "PCP daemon health (agent status, clients, control)"),
      ("pmproxy", "pmproxy daemon metrics (if pmproxy PMDA loaded)"),
      ("cgroup", "Container/cgroup metrics (CPU, memory, I/O per cgroup)"),
      ("containers", "Container metrics (Docker, Podman via PMDA)"),
      ("filesys", "Filesystem metrics (capacity, used, free per mount point)"),
      ("nfs", "NFS version-agnostic metrics"),
      ("nfs3", "NFSv3 client and server metrics"),
      ("nfs4", "NFSv4 client and server metrics"),
      ("swap", "Swap device metrics (activity per swap device)"),
      ("quota", "Filesystem quota metrics"),
      ("xfs", "XFS filesystem-specific metrics"),
      ("btrfs", "Btrfs filesystem-specific metrics"),
      ("zfs", "ZFS filesystem-specific metrics"),
      ("kvm", "KVM hypervisor metrics (guest VMs)"),
      ("libvirt", "libvirt virtualization metrics"),
      ("redis", "Redis server metrics (via redis PMDA)"),
      ("postgresql", "PostgreSQL database metrics (via postgresql PMDA)"),
      ("mysql", "MySQL database metrics (via mysql PMDA)"),
      ("nginx", "nginx web server metrics"),
      ("apache", "Apache web server metrics"),
      ("haproxy", "HAProxy load balancer metrics"),
      ("elasticsearch", "Elasticsearch metrics"),
      ("mongodb", "MongoDB metrics"),
      ("bcc", "eBPF-based advanced profiling (BPF PMDA - requires kernel 4.1+)"),
      ("hotproc", "Hot process tracking (automatically tracks top resource consumers)"),
      ("mmv", "Memory-mapped value metrics (custom app instrumentation)"),
      ("sysfs", "Linux sysfs metrics"),
      ("event", "System event tracing"),
      ("ipc", "Inter-process communication metrics (SysV IPC)"),
      ("jbd2", "JBD2 journal metrics (ext4 filesystem journaling)"),
      ("rpc", "RPC statistics"),
      ("acct", "Process accounting metrics"),
      ("fchost", "Fibre Channel host metrics"),
      ("tape", "Tape device metrics"),
      ("hyperv", "Hyper-V guest metrics")
    ]

  const UnknownNamespaceDoc := "Namespace provided by PMDA (no built-in description)"

  /** No built-in description reads like the notice for an unknown namespace. */
  lemma DocsNeverUnknown()
    ensures forall i | 0 <= i < |NamespaceDocs| :: NamespaceDocs[i].1 != UnknownNamespaceDoc
  {
  }

  /** `docs.get(ns, ...)`. */
  function NamespaceDoc(docs: seq<(string, string)>, ns: string): string
  {
    GetOr(docs, ns, UnknownNamespaceDoc)
  }

  /**
    With a table like `namespace_docs`, whose descriptions all differ from the
    notice, a namespace gets the notice exactly when the table lacks it.
  */
  lemma UnknownNamespaceIff(docs: seq<(string, string)>, ns: string)
    requires forall i | 0 <= i < |docs| :: docs[i].1 != UnknownNamespaceDoc
    ensures NamespaceDoc(docs, ns) == UnknownNamespaceDoc <==> Get(docs, ns).None?
  {
  }

  // -------------------------------------------------------------------- page

  /** The line of one namespace. */
  function NamespaceLine(docs: seq<(string, string)>, ns: string): string
  {
    "- **" + ns + ".***: " + NamespaceDoc(docs, ns) + "\n"
  }

  /** The lines of all namespaces, in order. */
  function NamespaceLines(docs: seq<(string, string)>, namespaces: seq<string>): string
  {
    if |namespaces| == 0 then ""
    else NamespaceLines(docs, namespaces[..|namespaces| - 1]) + NamespaceLine(docs, namespaces[|namespaces| - 1])
  }

  lemma {:induction false} NamespaceLinesAppend(docs: seq<(string, string)>, a: seq<string>, b: seq<string>)
    ensures NamespaceLines(docs, a + b) == NamespaceLines(docs, a) + NamespaceLines(docs, b)
  {
    if |b| > 0 {
      var b' := b[..|b| - 1];
      assert (a + b)[..|a + b| - 1] == a + b';
      NamespaceLinesAppend(docs, a, b');
    } else {
      assert a + b == a;
    }
  }

  /** The page head with the connected host and both counts. */
  function PageHeader(targetHost: string, activeCount: nat, namespaceCount: nat): string
  {
    "# PCP Metric Namespaces (Live Discovery)\n\nConnected to: " + targetHost
    + "\nActive PMDAs: " + NatToDecimal(activeCount)
    + "\nTop-level namespaces: " + NatToDecimal(namespaceCount) + "\n\n## Available Namespaces\n\n"
  }

  /** The running agents joined by ", ", or a notice when there are none. */
  function PmdaSection(active: seq<string>): (text: string)
    ensures |active| == 0 ==> text == "Unable to enumerate PMDAs"
    ensures |active| > 0 ==> text == Join(active, ", ")
  {
    if |active| > 0 then Join(active, ", ") else "Unable to enumerate PMDAs"
  }

  /** The fixed text of the guide: before the PMDA section, between it and the suggested namespace, and after. */
  const GuideHead :=
    "\n## Active PMDAs on This System\n\n"

  const GuideMiddle :=
    "\n\nStatus 0 = Running, non-zero = Error\n\n## Namespace Categories\n\n"
    + "### Core System (always available)\nkernel, mem, disk, network, proc, hinv, pmcd\n\n"
    + "### Filesystems\nfilesys, xfs, btrfs, zfs, quota, swap\n\n### Virtualization\n"
    + "kvm, libvirt, containers, cgroup, hyperv\n\n### Databases\n"
    + "redis, postgresql, mysql, elasticsearch, mongodb\n\n### Web Servers\n"
    + "nginx, apache, haproxy\n\n### Advanced\n"
    + "bcc (eBPF), hotproc (auto-tracking), mmv (custom metrics), event (tracing)\n\n"
    + "## Discovery Workflow\n\n1. **Explore a namespace**: search_metrics(\""

  const GuideTail :=
    "\")\n"
    + "2. **Count metrics in namespace**: search_metrics(\"disk\") to see all disk.* metrics\n"
    + "3. **Get metric details**: describe_metric(\"full.metric.name\")\n"
    + "4. **Query specific metrics**: query_metrics([\"name1\", \"name2\"])\n\n"
    + "## Navigation Strategy\n\n**Top-down** (recommended for troubleshooting):\n"
    + "  1. Start with get_system_snapshot() \U{2192} Identifies problem domain\n"
    + "  2. Drill into relevant namespace (e.g., \"disk\" issue \U{2192} search_metrics(\"disk.dev\"))\n"
    + "  3. Query specific metrics with query_metrics([...])\n\n"
    + "**Bottom-up** (exploring new system):\n"
    + "  1. Browse this pcp://namespaces resource \U{2192} See what\'s available\n"
    + "  2. search_metrics(\"interesting.namespace\") \U{2192} Explore subtree\n"
    + "  3. describe_metric(\"full.name\") \U{2192} Understand semantics\n"

  /** The guide after the namespace lines, with the PMDA section and the suggested namespace. */
  function PageGuide(active: seq<string>, hint: string): string
  {
    GuideHead + PmdaSection(active) + GuideMiddle + hint + GuideTail
  }

  /** The whole page, with the descriptions taken from `docs`. */
  function PageText(docs: seq<(string, string)>, targetHost: string, namespaces: seq<string>, active: seq<string>): string
  {
    PageHeader(targetHost, |active|, |namespaces|) + NamespaceLines(docs, namespaces) + PageGuide(active, Hint(namespaces))
  }

  /** A piece in the middle of the middle part of a text occurs in that text. */
  lemma ContainsNested(h: string, a: string, x: string, b: string, g: string)
    ensures Contains(h + (a + x + b) + g, x)
  {
    assert h + (a + x + b) + g == (h + a) + x + (b + g);
    ContainsMiddle(h + a, x, b + g);
  }

  /** Every namespace has its own line on the page. */
  lemma PageListsNamespaces(docs: seq<(string, string)>, targetHost: string, namespaces: seq<string>,
                            active: seq<string>, k: nat)
    requires k < |namespaces|
    ensures Contains(PageText(docs, targetHost, namespaces, active), NamespaceLine(docs, namespaces[k]))
  {
    var line := NamespaceLine(docs, namespaces[k]);
    var before, after := namespaces[..k], namespaces[k + 1..];
    assert namespaces == before + [namespaces[k]] + after;
    NamespaceLinesAppend(docs, before + [namespaces[k]], after);
    NamespaceLinesAppend(docs, before, [namespaces[k]]);
    assert NamespaceLines(docs, [namespaces[k]]) == line by {
      assert [namespaces[k]][..0] == [];
    }
    assert NamespaceLines(docs, namespaces) == NamespaceLines(docs, before) + line + NamespaceLines(docs, after);
    ContainsNested(PageHeader(targetHost, |active|, |namespaces|), NamespaceLines(docs, before), line,
                   NamespaceLines(docs, after), PageGuide(active, Hint(namespaces)));
  }

  /** A piece that follows a head inside a text's tail occurs in the text. */
  lemma ContainsInTail(h: string, a: string, x: string, b1: string, b2: string, b3: string)
    ensures Contains(h + (a + x + b1 + b2 + b3), x)
  {
    assert h + (a + x + b1 + b2 + b3) == (h + a) + x + (b1 + b2 + b3);
    ContainsMiddle(h + a, x, b1 + b2 + b3);
  }

  /** The PMDA section, the joined agents or the notice, appears on the page. */
  lemma PageShowsPmdas(docs: seq<(string, string)>, targetHost: string, namespaces: seq<string>, active: seq<string>)
    ensures Contains(PageText(docs, targetHost, namespaces, active), PmdaSection(active))
  {
    ContainsInTail(PageHeader(targetHost, |active|, |namespaces|) + NamespaceLines(docs, namespaces),
                   GuideHead, PmdaSection(active), GuideMiddle, Hint(namespaces), GuideTail);
  }

  /** The loop appending one line per namespace, then the guide. */
  method RenderPage(docs: seq<(string, string)>, targetHost: string, namespaces: seq<string>, active: seq<string>)
    returns (output: string)
    ensures output == PageText(docs, targetHost, namespaces, active)
  {
    output := PageHeader(targetHost, |active|, |namespaces|);
    var i := 0;
    while i < |namespaces|
      invariant 0 <= i <= |namespaces|
      invariant output == PageHeader(targetHost, |active|, |namespaces|) + NamespaceLines(docs, namespaces[..i])
    {
      var ns := namespaces[i];
      var doc := GetOr(docs, ns, UnknownNamespaceDoc);
      var line := "- **" + ns + ".***: " + doc + "\n";
      assert line == NamespaceLine(docs, ns);
      assert namespaces[..i + 1][..i] == namespaces[..i];
      assert NamespaceLines(docs, namespaces[..i + 1]) == NamespaceLines(docs, namespaces[..i]) + line;
      output := output + line;
      i := i + 1;
    }
    assert namespaces[..i] == namespaces;
    output := output + PageGuide(active, Hint(namespaces));
  }

  // --------------------------------------------------------------- resource

  /**
    `metric_namespaces(ctx)` with the client taken from the context without
    `await`: the context failure, then a failed search or status fetch (routed
    through `handle_pcp_error`), otherwise the page. `client` is the target
    host of the lifespan client, or the failure of looking it up.
  */
  function NamespacesResult(client: Result<string, PyError>, allMetrics: Result<seq<Meta>, PyError>,
                            pmdaStatus: Result<RawResponse, PyError>): (r: Result<string, PyError>)
    ensures client.Err? ==> r == Err(client.error)
    ensures client.Ok? && allMetrics.Err? ==> r == Err(HandlePcpError(allMetrics.error, "discovering namespaces"))
    ensures client.Ok? && allMetrics.Ok? && pmdaStatus.Err? ==>
              r == Err(HandlePcpError(pmdaStatus.error, "discovering namespaces"))
    ensures r.Ok? <==> client.Ok? && allMetrics.Ok? && pmdaStatus.Ok?
    ensures r.Ok? ==> r.value == PageText(NamespaceDocs, client.value, Namespaces(allMetrics.value),
                                          RunningAgents(pmdaStatus.value.values))
  {
    if client.Err? then Err(client.error)
    else if allMetrics.Err? then Err(HandlePcpError(allMetrics.error, "discovering namespaces"))
    else if pmdaStatus.Err? then Err(HandlePcpError(pmdaStatus.error, "discovering namespaces"))
    else Ok(PageText(NamespaceDocs, client.value, Namespaces(allMetrics.value), RunningAgents(pmdaStatus.value.values)))
  }

  /** The resource computed step by step: the namespaces, the agent loop, then the page loop. */
  method MetricNamespaces(client: Result<string, PyError>, allMetrics: Result<seq<Meta>, PyError>,
                          pmdaStatus: Result<RawResponse, PyError>) returns (r: Result<string, PyError>)
    ensures r == NamespacesResult(client, allMetrics, pmdaStatus)
  {
    if client.Err? {
      return Err(client.error);
    }
    if allMetrics.Err? {
      return Err(HandlePcpError(allMetrics.error, "discovering namespaces"));
    }
    var namespaces := SortByKey(NameCandidates(allMetrics.value), Id);
    if pmdaStatus.Err? {
      return Err(HandlePcpError(pmdaStatus.error, "discovering namespaces"));
    }
    var active := CollectActivePmdas(pmdaStatus.value);
    var output := RenderPage(NamespaceDocs, client.value, namespaces, active);
    return Ok(output);
  }

  /** The exception Python raises for `await` on an object that is not awaitable. */
  const NotAwaitable := Other("TypeError", "object PCPClient can't be used in 'await' expression")

  /**
    The resource as written: `get_client` is synchronous and returns the
    client itself, which is then awaited before the `try` block.
  */
  function MetricNamespacesAsWritten(client: Result<string, PyError>, allMetrics: Result<seq<Meta>, PyError>,
                                     pmdaStatus: Result<RawResponse, PyError>): (r: Result<string, PyError>)
    ensures r.Err?
  {
    match client
    case Err(e) => Err(e)
    case Ok(_) => Err(NotAwaitable)
  }

  /**
    Whatever the server replies, the page is never produced as written; with
    a valid context the caller sees a raw TypeError, not the ToolError that
    `handle_pcp_error` would give, where the corrected resource succeeds.
  */
  lemma AwaitedClientNeverServes(host: string, allMetrics: seq<Meta>, pmdaStatus: RawResponse)
    ensures MetricNamespacesAsWritten(Ok(host), Ok(allMetrics), Ok(pmdaStatus)).Err?
    ensures !MetricNamespacesAsWritten(Ok(host), Ok(allMetrics), Ok(pmdaStatus)).error.ToolError?
    ensures NamespacesResult(Ok(host), Ok(allMetrics), Ok(pmdaStatus)).Ok?
  {
  }
}
