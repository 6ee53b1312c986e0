/**
  The system tools of `tools/system.py`: which metrics a snapshot requests
  for its categories, which sections it fills, the two private builders that
  differ from `utils/builders.py` (memory "used" and the load instance keys),
  and the top-N process view (metric selection, stable descending sort by
  the sort key, truncation to `limit`).

  The private `_get_first_value`, `_get_scalar_value`, `_sum_instances`,
  `_build_cpu/disk/network_metrics`, `_build_process_list`, `_get_sort_key`
  and `_assess_processes` behave exactly as their counterparts in
  `utils/extractors.py` and `utils/builders.py`, so the tools here call the
  `Extractors` and `Builders` members. The pmproxy fetches, the clock and
  the connected client are parameters.
*/
module SystemTools {
  import opened Wrappers
  import opened Errors
  import opened Values
  import opened Extractors
  import opened Builders
  import opened StableSort

  // ------------------------------------------------------------ constants

  const CpuGroup: seq<string> :=
    ["kernel.all.cpu.user", "kernel.all.cpu.sys", "kernel.all.cpu.idle", "kernel.all.cpu.wait.total", "hinv.ncpu"]
  const MemoryGroup: seq<string> :=
    ["mem.physmem", "mem.util.used", "mem.util.free", "mem.util.available", "mem.util.cached", "mem.util.bufmem",
     "mem.util.swapTotal", "mem.util.swapFree"]
  const LoadGroup: seq<string> := ["kernel.all.load", "kernel.all.runnable", "kernel.all.nprocs"]
  const DiskGroup: seq<string> := ["disk.all.read_bytes", "disk.all.write_bytes", "disk.all.read", "disk.all.write"]
  const NetworkGroup: seq<string> :=
    ["network.interface.in.bytes", "network.interface.out.bytes", "network.interface.in.packets",
     "network.interface.out.packets"]

  /** `SNAPSHOT_METRICS.get(category)`. */
  function SnapshotGroup(category: string): Option<seq<string>>
  {
    if category == "cpu" then Some(CpuGroup)
    else if category == "memory" then Some(MemoryGroup)
    else if category == "load" then Some(LoadGroup)
    else if category == "disk" then Some(DiskGroup)
    else if category == "network" then Some(NetworkGroup)
    else None
  }

  /** `COUNTER_METRICS`: the metrics the rate engine turns into per-second rates. */
  const CounterMetrics: set<string> :=
    {"kernel.all.cpu.user", "kernel.all.cpu.sys", "kernel.all.cpu.idle", "kernel.all.cpu.wait.total",
     "disk.all.read_bytes", "disk.all.write_bytes", "disk.all.read", "disk.all.write",
     "network.interface.in.bytes", "network.interface.out.bytes", "network.interface.in.packets",
     "network.interface.out.packets"}

  const ProcessInfoGroup: seq<string> := ["proc.psinfo.pid", "proc.psinfo.cmd", "proc.psinfo.psargs"]
  const ProcessMemoryGroup: seq<string> := ["proc.memory.rss"]
  const ProcessCpuGroup: seq<string> := ["proc.psinfo.utime", "proc.psinfo.stime"]
  const ProcessIoGroup: seq<string> := ["proc.io.read_bytes", "proc.io.write_bytes"]

  /** `PROCESS_METRICS.get(key, [])`. */
  function ProcessGroup(key: string): seq<string>
  {
    if key == "cpu" then ProcessCpuGroup
    else if key == "memory" then ProcessMemoryGroup
    else if key == "io" then ProcessIoGroup
    else if key == "info" then ProcessInfoGroup
    else []
  }

  /** Every rated counter is one of the first four CPU metrics or a disk or network metric. */
  lemma CounterMetricsInGroups()
    ensures forall m | m in CounterMetrics :: m in CpuGroup[..4] || m in DiskGroup || m in NetworkGroup
  {
    assert CounterMetrics == {CpuGroup[0], CpuGroup[1], CpuGroup[2], CpuGroup[3], DiskGroup[0], DiskGroup[1],
                              DiskGroup[2], DiskGroup[3], NetworkGroup[0], NetworkGroup[1], NetworkGroup[2],
                              NetworkGroup[3]};
  }

  /** No memory, load or CPU-count metric is a counter. */
  lemma CounterMetricsAreRated()
    ensures forall m | m in CounterMetrics :: m !in MemoryGroup && m !in LoadGroup && m != "hinv.ncpu"
  {
    CounterMetricsInGroups();
    assert forall i, j | 0 <= i < |MemoryGroup| && 0 <= j < 4 ::
      MemoryGroup[i] != CpuGroup[j] && MemoryGroup[i] != DiskGroup[j] && MemoryGroup[i] != NetworkGroup[j];
    assert forall i, j | 0 <= i < |LoadGroup| && 0 <= j < 4 ::
      LoadGroup[i] != CpuGroup[j] && LoadGroup[i] != DiskGroup[j] && LoadGroup[i] != NetworkGroup[j];
    assert forall j | 0 <= j < 4 :: "hinv.ncpu" != CpuGroup[j] && "hinv.ncpu" != DiskGroup[j] && "hinv.ncpu" != NetworkGroup[j];
  }

  // ------------------------------------------------------------- snapshot

  /** The categories used when none are given. */
  const DefaultCategories: seq<string> := ["cpu", "memory", "disk", "network", "load"]

  /** The metrics of the known categories, group after group in request order. */
  function SelectedMetrics(categories: seq<string>): (r: seq<string>)
    ensures (forall c | c in categories :: SnapshotGroup(c).None?) ==> r == []
  {
    if |categories| == 0 then []
    else SelectedMetrics(categories[..|categories| - 1]) + SnapshotGroup(categories[|categories| - 1]).GetOr([])
  }

  /** Metric `m` belongs to the group of some requested, known category. */
  ghost predicate Requested(categories: seq<string>, m: string)
  {
    exists c :: c in categories && SnapshotGroup(c).Some? && m in SnapshotGroup(c).value
  }

  /** A metric is requested exactly when it belongs to a requested known category; unknown categories add nothing. */
  lemma {:induction false} SelectedMetricsMembers(categories: seq<string>)
    ensures forall m :: m in SelectedMetrics(categories) <==> Requested(categories, m)
  {
    if |categories| > 0 {
      var init, last := categories[..|categories| - 1], categories[|categories| - 1];
      SelectedMetricsMembers(init);
      assert categories == init + [last];
      forall m ensures m in SelectedMetrics(categories) <==> Requested(categories, m) {
        if Requested(categories, m) && m !in SnapshotGroup(last).GetOr([]) {
          var c :| c in categories && SnapshotGroup(c).Some? && m in SnapshotGroup(c).value;
          assert c in init;
        }
      }
    }
  }

  /** The default request is the five groups in the order cpu, memory, disk, network, load. */
  lemma DefaultSelection()
    ensures SelectedMetrics(DefaultCategories) == CpuGroup + MemoryGroup + DiskGroup + NetworkGroup + LoadGroup
  {
    var d := DefaultCategories;
    assert SelectedMetrics(d[..1]) == CpuGroup by {
      assert d[..1][..0] == [];
    }
    assert SelectedMetrics(d[..2]) == CpuGroup + MemoryGroup by {
      assert d[..2][..1] == d[..1];
    }
    assert SelectedMetrics(d[..3]) == CpuGroup + MemoryGroup + DiskGroup by {
      assert d[..3][..2] == d[..2];
    }
    assert SelectedMetrics(d[..4]) == CpuGroup + MemoryGroup + DiskGroup + NetworkGroup by {
      assert d[..4][..3] == d[..3];
    }
    assert d[..5][..4] == d[..4];
    assert d[..5] == d;
  }

  /** The category loop of `get_system_snapshot`: None becomes the default list, then each known group is appended. */
  method SnapshotMetricNames(categories: Option<seq<string>>) returns (cats: seq<string>, allMetrics: seq<string>)
    ensures cats == categories.GetOr(DefaultCategories)
    ensures allMetrics == SelectedMetrics(cats)
  {
    cats := if categories.None? then DefaultCategories else categories.value;
    allMetrics := [];
    var i := 0;
    while i < |cats|
      invariant 0 <= i <= |cats|
      invariant allMetrics == SelectedMetrics(cats[..i])
    {
      var group := SnapshotGroup(cats[i]);
      if group.Some? {
        allMetrics := allMetrics + group.value;
      }
      assert cats[..i + 1][..i] == cats[..i];
      i := i + 1;
    }
    assert cats[..i] == cats;
  }

  /** `_build_memory_metrics` of the system tools: used memory is read from `mem.util.used`. */
  function SystemBuildMemoryMetrics(data: Data): (r: Result<MemoryMetrics, PyError>)
    ensures r.Ok? <==> Kib(data, "mem.physmem").Ok? && Kib(data, "mem.util.used").Ok? && Kib(data, "mem.util.free").Ok?
                       && Kib(data, "mem.util.available").Ok? && Kib(data, "mem.util.cached").Ok?
                       && Kib(data, "mem.util.bufmem").Ok? && Kib(data, "mem.util.swapTotal").Ok? && Kib(data, "mem.util.swapFree").Ok?
    ensures r.Ok? ==> Kib(data, "mem.util.used") == Ok(r.value.usedBytes)
    ensures r.Ok? ==> Kib(data, "mem.physmem") == Ok(r.value.totalBytes)
    ensures r.Ok? ==> Kib(data, "mem.util.free") == Ok(r.value.freeBytes) && Kib(data, "mem.util.available") == Ok(r.value.availableBytes)
                      && Kib(data, "mem.util.cached") == Ok(r.value.cachedBytes) && Kib(data, "mem.util.bufmem") == Ok(r.value.buffersBytes)
                      && Kib(data, "mem.util.swapTotal") == Ok(r.value.swapTotalBytes)
                      && Kib(data, "mem.util.swapFree") == Ok(r.value.swapTotalBytes - r.value.swapUsedBytes)
    ensures r.Ok? ==> r.value.usedPercent == UsedPercent(r.value.usedBytes, r.value.totalBytes)
    ensures r.Ok? && r.value.totalBytes == 0 ==> r.value.usedPercent == 0.0
    ensures r.Ok? ==> r.value.assessment == AssessMemory(r.value.swapUsedBytes, r.value.swapTotalBytes, r.value.usedPercent)
  {
    var total :- Kib(data, "mem.physmem");
    var used :- Kib(data, "mem.util.used");
    var free :- Kib(data, "mem.util.free");
    var available :- Kib(data, "mem.util.available");
    var cached :- Kib(data, "mem.util.cached");
    var buffers :- Kib(data, "mem.util.bufmem");
    var swapTotal :- Kib(data, "mem.util.swapTotal");
    var swapFree :- Kib(data, "mem.util.swapFree");
    var swapUsed := swapTotal - swapFree;
    var pct := UsedPercent(used, total);
    Ok(MemoryMetrics(total, used, free, available, cached, buffers, swapUsed, swapTotal, pct,
                     AssessMemory(swapUsed, swapTotal, pct)))
  }

  /**
    The two memory builders agree on every reading except "used": when both
    succeed they differ at most in used bytes, the percentage and the
    assessment, and they agree completely when `mem.util.used` equals total
    minus available.
  */
  lemma MemoryBuildersAgree(data: Data)
    requires SystemBuildMemoryMetrics(data).Ok? && BuildMemoryMetrics(data).Ok?
    ensures var s, b := SystemBuildMemoryMetrics(data).value, BuildMemoryMetrics(data).value;
      s.(usedBytes := b.usedBytes, usedPercent := b.usedPercent, assessment := b.assessment) == b
    ensures var s, b := SystemBuildMemoryMetrics(data).value, BuildMemoryMetrics(data).value;
      s.usedBytes == s.totalBytes - s.availableBytes ==> s == b
  {
  }

  /** The system memory builder succeeds exactly when the other one does and `mem.util.used` converts too. */
  lemma MemoryBuildersSucceedTogether(data: Data)
    ensures SystemBuildMemoryMetrics(data).Ok? <==> BuildMemoryMetrics(data).Ok? && Kib(data, "mem.util.used").Ok?
  {
  }

  /** `float(load_data.get(label, load_data.get(n, 0.0)))`: the string key wins over the integer key. */
  function SystemLoadAt(loads: seq<(InstId, Value)>, minutes: string, n: int): (r: Result<real, PyError>)
    ensures Get(loads, IdStr(minutes)).Some? ==> r == ToFloat(Get(loads, IdStr(minutes)).value)
    ensures Get(loads, IdStr(minutes)).None? ==> r == LoadAt(loads, IdInt(n))
  {
    match Get(loads, IdStr(minutes))
    case Some(v) => ToFloat(v)
    case None => ToFloat(GetOr(loads, IdInt(n), Float(0.0)))
  }

  /** `_build_load_metrics` of the system tools: "1 minute", "5 minute", "15 minute", then 1, 5, 15, then 0.0. */
  function SystemBuildLoadMetrics(data: Data): (r: Result<LoadMetrics, PyError>)
    ensures r.Ok? <==> SystemLoadAt(InstancesOf(data, "kernel.all.load"), "1 minute", 1).Ok?
                       && SystemLoadAt(InstancesOf(data, "kernel.all.load"), "5 minute", 5).Ok?
                       && SystemLoadAt(InstancesOf(data, "kernel.all.load"), "15 minute", 15).Ok?
                       && GetFirstValue(data, "kernel.all.runnable", 0.0).Ok? && GetFirstValue(data, "kernel.all.nprocs", 0.0).Ok?
                       && GetFirstValue(data, "hinv.ncpu", 1.0).Ok?
    ensures r.Ok? ==> GetFirstValue(data, "hinv.ncpu", 1.0).Ok?
                      && r.value.assessment == AssessLoad(r.value.load1m, Trunc(GetFirstValue(data, "hinv.ncpu", 1.0).value))
    ensures r.Ok? ==> SystemLoadAt(InstancesOf(data, "kernel.all.load"), "1 minute", 1) == Ok(r.value.load1m)
                      && SystemLoadAt(InstancesOf(data, "kernel.all.load"), "5 minute", 5) == Ok(r.value.load5m)
                      && SystemLoadAt(InstancesOf(data, "kernel.all.load"), "15 minute", 15) == Ok(r.value.load15m)
    ensures r.Ok? ==> GetFirstValue(data, "kernel.all.runnable", 0.0).Ok? && GetFirstValue(data, "kernel.all.nprocs", 0.0).Ok?
                      && r.value.runnable == Trunc(GetFirstValue(data, "kernel.all.runnable", 0.0).value)
                      && r.value.nprocs == Trunc(GetFirstValue(data, "kernel.all.nprocs", 0.0).value)
  {
    var loads := InstancesOf(data, "kernel.all.load");
    var load1 :- SystemLoadAt(loads, "1 minute", 1);
    var load5 :- SystemLoadAt(loads, "5 minute", 5);
    var load15 :- SystemLoadAt(loads, "15 minute", 15);
    var runnable :- GetFirstValue(data, "kernel.all.runnable", 0.0);
    var nprocs :- GetFirstValue(data, "kernel.all.nprocs", 0.0);
    var n :- GetFirstValue(data, "hinv.ncpu", 1.0);
    Ok(LoadMetrics(load1, load5, load15, Trunc(runnable), Trunc(nprocs), AssessLoad(load1, Trunc(n))))
  }

  /** Without string-labelled instances the two load builders agree; with one, the system tools read it instead. */
  lemma LoadBuildersAgree(data: Data)
    ensures var loads := InstancesOf(data, "kernel.all.load");
      (Get(loads, IdStr("1 minute")).None? && Get(loads, IdStr("5 minute")).None? && Get(loads, IdStr("15 minute")).None?)
        ==> SystemBuildLoadMetrics(data) == BuildLoadMetrics(data)
    ensures var loads := InstancesOf(data, "kernel.all.load");
      (Get(loads, IdStr("1 minute")).Some? && SystemBuildLoadMetrics(data).Ok?)
        ==> ToFloat(Get(loads, IdStr("1 minute")).value) == Ok(SystemBuildLoadMetrics(data).value.load1m)
  {
  }

  datatype SystemSnapshot = SystemSnapshot(timestamp: string, hostname: string, cpu: Option<CpuMetrics>,
                                           memory: Option<MemoryMetrics>, load: Option<LoadMetrics>,
                                           disk: Option<DiskMetrics>, network: Option<NetworkMetrics>)

  /** Each section is present exactly when its category was requested, and then holds that builder's result. */
  ghost predicate SectionsMatch(s: SystemSnapshot, cats: seq<string>, data: Data)
  {
    && (s.cpu.Some? <==> "cpu" in cats) && (s.cpu.Some? ==> BuildCpuMetrics(data) == Ok(s.cpu.value))
    && (s.memory.Some? <==> "memory" in cats) && (s.memory.Some? ==> SystemBuildMemoryMetrics(data) == Ok(s.memory.value))
    && (s.load.Some? <==> "load" in cats) && (s.load.Some? ==> SystemBuildLoadMetrics(data) == Ok(s.load.value))
    && (s.disk.Some? <==> "disk" in cats) && (s.disk.Some? ==> BuildDiskMetrics(data) == Ok(s.disk.value))
    && (s.network.Some? <==> "network" in cats) && (s.network.Some? ==> BuildNetworkMetrics(data) == Ok(s.network.value))
  }

  /** Every requested section can be built from `data`. */
  ghost predicate SectionsBuild(cats: seq<string>, data: Data)
  {
    && ("cpu" in cats ==> BuildCpuMetrics(data).Ok?)
    && ("memory" in cats ==> SystemBuildMemoryMetrics(data).Ok?)
    && ("load" in cats ==> SystemBuildLoadMetrics(data).Ok?)
    && ("disk" in cats ==> BuildDiskMetrics(data).Ok?)
    && ("network" in cats ==> BuildNetworkMetrics(data).Ok?)
  }

  /**
    `get_system_snapshot(categories)`. `fetchWithRates` is the rated fetch of
    the requested metric list; `now` and `hostname` are the clock reading and
    the client's target host.
  */
  method GetSystemSnapshot(categories: Option<seq<string>>, fetchWithRates: seq<string> -> Result<Data, PyError>,
                           now: string, hostname: string)
    returns (r: Result<SystemSnapshot, PyError>)
    ensures var cats := categories.GetOr(DefaultCategories);
      var fetched := fetchWithRates(SelectedMetrics(cats));
      fetched.Err? ==> r == Err(HandlePcpError(fetched.error, "fetching system snapshot"))
    ensures var cats := categories.GetOr(DefaultCategories);
      var fetched := fetchWithRates(SelectedMetrics(cats));
      r.Ok? ==> fetched.Ok? && SectionsMatch(r.value, cats, fetched.value)
                && r.value.timestamp == now && r.value.hostname == hostname
    ensures var cats := categories.GetOr(DefaultCategories);
      var fetched := fetchWithRates(SelectedMetrics(cats));
      r.Err? && fetched.Ok? ==> !SectionsBuild(cats, fetched.value)
  {
    var cats, names := SnapshotMetricNames(categories);
    var fetched := fetchWithRates(names);
    if fetched.Err? {
      return Err(HandlePcpError(fetched.error, "fetching system snapshot"));
    }
    var data := fetched.value;
    var snapshot := SystemSnapshot(now, hostname, None, None, None, None, None);
    if "cpu" in cats {
      var cpu := BuildCpuMetrics(data);
      if cpu.Err? {
        return Err(cpu.error);
      }
      snapshot := snapshot.(cpu := Some(cpu.value));
    }
    if "memory" in cats {
      var memory := SystemBuildMemoryMetrics(data);
      if memory.Err? {
        return Err(memory.error);
      }
      snapshot := snapshot.(memory := Some(memory.value));
    }
    if "load" in cats {
      var load := SystemBuildLoadMetrics(data);
      if load.Err? {
        return Err(load.error);
      }
      snapshot := snapshot.(load := Some(load.value));
    }
    if "disk" in cats {
      var disk := BuildDiskMetrics(data);
      if disk.Err? {
        return Err(disk.error);
      }
      snapshot := snapshot.(disk := Some(disk.value));
    }
    if "network" in cats {
      var network := BuildNetworkMetrics(data);
      if network.Err? {
        return Err(network.error);
      }
      snapshot := snapshot.(network := Some(network.value));
    }
    return Ok(snapshot);
  }

  // ---------------------------------------------------------- process top

  /** The list `get_process_top` assembles before `list(set(...))`: the sort key's group may appear twice. */
  function ProcessMetricList(sortBy: string): seq<string>
  {
    ProcessGroup("info") + ProcessGroup("memory") + ProcessGroup(sortBy)
    + (if sortBy == "cpu" then ProcessGroup("cpu") else if sortBy == "io" then ProcessGroup("io") else [])
  }

  /** The metrics requested for the process view, without duplicates. */
  function ProcessMetricNames(sortBy: string): (names: set<string>)
    ensures forall m | m in ProcessInfoGroup || m in ProcessMemoryGroup :: m in names
  {
    set m | m in ProcessMetricList(sortBy)
  }

  /** The info and memory groups are always requested; the CPU group exactly when sorting by CPU, the I/O group exactly when sorting by I/O. */
  lemma ProcessMetricSelection(sortBy: string)
    requires sortBy == "cpu" || sortBy == "memory" || sortBy == "io"
    ensures ProcessMetricNames(sortBy) ==
      (set m | m in ProcessInfoGroup + ProcessMemoryGroup)
      + (if sortBy == "cpu" then set m | m in ProcessCpuGroup else {})
      + (if sortBy == "io" then set m | m in ProcessIoGroup else {})
  {
  }

  /** The sort key as a function of the process, for `list.sort(key=...)`. */
  function SortKeyOf(sortBy: string): ProcessInfo -> real
  {
    p => SortKey(p, sortBy)
  }

  /** `processes.sort(key=..., reverse=True)` followed by `processes[:limit]`. */
  function TopN(processes: seq<ProcessInfo>, sortBy: string, limit: nat): (r: seq<ProcessInfo>)
    ensures |r| == if limit < |processes| then limit else |processes|
    ensures multiset(r) <= multiset(processes)
  {
    var sorted := SortDesc(processes, SortKeyOf(sortBy));
    SortDescCorrect(processes, SortKeyOf(sortBy));
    assert |sorted| == |multiset(sorted)| == |processes|;
    assert sorted == sorted[..if limit < |sorted| then limit else |sorted|] + sorted[if limit < |sorted| then limit else |sorted|..];
    if limit < |sorted| then sorted[..limit] else sorted
  }

  /** In a descending list every element of a prefix is at least every element after it. */
  lemma PrefixDominates<T>(sorted: seq<T>, n: nat, key: T -> real)
    requires Descending(sorted, key) && n <= |sorted|
    ensures forall x, y | x in sorted[..n] && y in sorted[n..] :: key(x) >= key(y)
  {
    forall x, y | x in sorted[..n] && y in sorted[n..] ensures key(x) >= key(y) {
      var i :| 0 <= i < n && sorted[..n][i] == x;
      var j :| 0 <= j < |sorted| - n && sorted[n..][j] == y;
      assert sorted[i] == x && sorted[n + j] == y;
    }
  }

  /** The `limit` first of a stable descending sort: the right length, in order, and never below an element left out. */
  lemma TopNIsTop(processes: seq<ProcessInfo>, sortBy: string, limit: nat)
    ensures |TopN(processes, sortBy, limit)| == if limit < |processes| then limit else |processes|
    ensures Descending(TopN(processes, sortBy, limit), SortKeyOf(sortBy))
    ensures var sorted := SortDesc(processes, SortKeyOf(sortBy));
      multiset(TopN(processes, sortBy, limit)) + multiset(sorted[|TopN(processes, sortBy, limit)|..]) == multiset(processes)
    ensures var sorted := SortDesc(processes, SortKeyOf(sortBy));
      forall x, y | x in TopN(processes, sortBy, limit) && y in sorted[|TopN(processes, sortBy, limit)|..] ::
        SortKey(x, sortBy) >= SortKey(y, sortBy)
  {
    var key := SortKeyOf(sortBy);
    var sorted := SortDesc(processes, key);
    SortDescCorrect(processes, key);
    assert |sorted| == |multiset(sorted)| == |processes|;
    var top := TopN(processes, sortBy, limit);
    var n := |top|;
    assert top == sorted[..n];
    PrefixSplit(sorted, n, key);
    PrefixDominates(sorted, n, key);
  }

  /** A prefix of a descending list is descending, and it and the rest make up the list. */
  lemma PrefixSplit<T>(sorted: seq<T>, n: nat, key: T -> real)
    requires Descending(sorted, key) && n <= |sorted|
    ensures Descending(sorted[..n], key)
    ensures multiset(sorted[..n]) + multiset(sorted[n..]) == multiset(sorted)
  {
    assert sorted == sorted[..n] + sorted[n..];
  }

  /** `WithKey` of a prefix is a prefix of `WithKey`. */
  lemma {:induction false} WithKeyPrefix<T>(s: seq<T>, n: nat, key: T -> real, k: real)
    requires n <= |s|
    ensures var w := WithKey(s, key, k); var p := WithKey(s[..n], key, k); |p| <= |w| && w[..|p|] == p
  {
    if n > 0 {
      WithKeyPrefix(s[1..], n - 1, key, k);
      assert s[..n][1..] == s[1..][..n - 1];
    }
  }

  /** Stability survives truncation: processes with equal sort keys keep their original relative order. */
  lemma TopNStable(processes: seq<ProcessInfo>, sortBy: string, limit: nat, k: real)
    ensures var w := WithKey(processes, SortKeyOf(sortBy), k);
      var t := WithKey(TopN(processes, sortBy, limit), SortKeyOf(sortBy), k);
      |t| <= |w| && w[..|t|] == t
  {
    var key := SortKeyOf(sortBy);
    var sorted := SortDesc(processes, key);
    SortDescCorrect(processes, key);
    if limit < |sorted| {
      WithKeyPrefix(sorted, limit, key, k);
    } else {
      assert TopN(processes, sortBy, limit) == sorted;
    }
  }

  /**
    The order is decided on the rounded figures: processes at 1.01% and 1.04%
    both sort as 1.0%, so the first in pid order stays first.
  */
  lemma RoundedTieKeepsOrder(p: ProcessInfo, q: ProcessInfo)
    requires p.cpuPercent == Some(Round1(1.01)) && q.cpuPercent == Some(Round1(1.04))
    ensures TopN([p, q], "cpu", 1) == [p]
  {
    assert (10.1 + 0.5).Floor == 10 && (10.4 + 0.5).Floor == 10;
    var key := SortKeyOf("cpu");
    assert key(p) == 1.0 && key(q) == 1.0;
    var top := TopN([p, q], "cpu", 1);
    assert top[0] in multiset([p, q]);
    TopNStable([p, q], "cpu", 1, 1.0);
    assert [p, q][1..] == [q] && [q][1..] == [];
    assert WithKey([q], key, 1.0) == [q];
    assert WithKey([p, q], key, 1.0) == [p, q];
    assert WithKey(top, key, 1.0) == top;
  }

  datatype ProcessTopResult = ProcessTopResult(timestamp: string, hostname: string, sortBy: string, sampleInterval: real,
                                               processes: seq<ProcessInfo>, totalMemoryBytes: int, ncpu: int,
                                               assessment: ProcessAssessment)

  /** The system metrics `get_process_top` fetches without rates. */
  const SystemMetrics: seq<string> := ["hinv.ncpu", "mem.physmem"]

  /**
    `get_process_top(sort_by, limit, sample_interval)`. `fetchProcesses` is the
    rated fetch of the process metrics and `fetchSystem` the plain fetch of
    the CPU count and physical memory; both fetch failures are reported
    through `handle_pcp_error`. Failures after the fetches (`int()` of the
    CPU count or memory, building a process, the assessment) propagate as
    raised. The tool succeeds exactly when none of these steps fails.
  */
  method GetProcessTop(sortBy: string, limit: int, sampleInterval: real,
                       fetchProcesses: set<string> -> Result<Data, PyError>,
                       fetchSystem: seq<string> -> Result<RawResponse, PyError>,
                       floatRepr: real -> string, now: string, hostname: string)
    returns (r: Result<ProcessTopResult, PyError>)
    requires sortBy == "cpu" || sortBy == "memory" || sortBy == "io"
    requires 1 <= limit <= 50
    ensures fetchProcesses(ProcessMetricNames(sortBy)).Err? ==>
              r == Err(HandlePcpError(fetchProcesses(ProcessMetricNames(sortBy)).error, "fetching process data"))
    ensures fetchProcesses(ProcessMetricNames(sortBy)).Ok? && fetchSystem(SystemMetrics).Err? ==>
              r == Err(HandlePcpError(fetchSystem(SystemMetrics).error, "fetching process data"))
    ensures r.Ok? ==> fetchProcesses(ProcessMetricNames(sortBy)).Ok? && fetchSystem(SystemMetrics).Ok?
    ensures var procs, sys := fetchProcesses(ProcessMetricNames(sortBy)), fetchSystem(SystemMetrics);
      procs.Ok? && sys.Ok? && GetScalarValue(sys.value, "hinv.ncpu", 1).Ok? && GetScalarValue(sys.value, "mem.physmem", 1).Ok? ==>
        var src := ExtractProcessDataSources(procs.value);
        var built := BuildAll(Keys(src.pid), src, sortBy, (GetScalarValue(sys.value, "mem.physmem", 1).value * 1024) as real, floatRepr);
        (r.Ok? <==> built.Ok? && AssessProcesses(TopN(built.value, sortBy, limit), sortBy, GetScalarValue(sys.value, "hinv.ncpu", 1).value).Ok?)
    ensures r.Ok? ==> GetScalarValue(fetchSystem(SystemMetrics).value, "hinv.ncpu", 1) == Ok(r.value.ncpu)
    ensures r.Ok? ==> GetScalarValue(fetchSystem(SystemMetrics).value, "mem.physmem", 1).Ok?
                      && r.value.totalMemoryBytes == GetScalarValue(fetchSystem(SystemMetrics).value, "mem.physmem", 1).value * 1024
    ensures r.Ok? ==> var data := fetchProcesses(ProcessMetricNames(sortBy)).value;
      var src := ExtractProcessDataSources(data);
      var built := BuildAll(Keys(src.pid), src, sortBy, r.value.totalMemoryBytes as real, floatRepr);
      built.Ok? && r.value.processes == TopN(built.value, sortBy, limit)
    ensures r.Ok? ==> |r.value.processes| <= limit
    ensures r.Ok? ==> AssessProcesses(r.value.processes, sortBy, r.value.ncpu) == Ok(r.value.assessment)
    ensures r.Ok? ==> r.value.sortBy == sortBy && r.value.sampleInterval == sampleInterval
                      && r.value.timestamp == now && r.value.hostname == hostname
  {
    var names := ProcessMetricNames(sortBy);
    var procData := fetchProcesses(names);
    if procData.Err? {
      return Err(HandlePcpError(procData.error, "fetching process data"));
    }
    var sysData := fetchSystem(SystemMetrics);
    if sysData.Err? {
      return Err(HandlePcpError(sysData.error, "fetching process data"));
    }
    var ncpu :- GetScalarValue(sysData.value, "hinv.ncpu", 1);
    var physmem :- GetScalarValue(sysData.value, "mem.physmem", 1);
    var totalMem := physmem * 1024;
    var built :- BuildProcessList(procData.value, sortBy, totalMem as real, ncpu, floatRepr);
    var processes := TopN(built, sortBy, limit);
    TopNIsTop(built, sortBy, limit);
    var assessment :- AssessProcesses(processes, sortBy, ncpu);
    return Ok(ProcessTopResult(now, hostname, sortBy, sampleInterval, processes, totalMem, ncpu, assessment));
  }
}
