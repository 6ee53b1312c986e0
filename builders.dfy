/**
  The summary builders of `utils/builders.py`: CPU, memory, load, disk and
  network snapshots classified by first-match threshold tables, and the
  per-process list with its sort key and assessment.

  Numbers are exact reals; `round(x, 1)` on the stored fields and the
  `:.0f`/`:.1f` formatting inside assessment texts are not modelled, so the
  texts that embed a number take the formatter as a parameter.
*/
module Builders {
  import opened Wrappers
  import opened Strings
  import opened Errors
  import opened Values
  import opened Extractors

  // ------------------------------------------------------------------ CPU

  datatype CpuAssessment = DiskBound | Saturated | UserBound | HighSystem | CpuNormal

  function CpuAssessmentText(a: CpuAssessment): string
  {
    match a
    case DiskBound => "High I/O wait - system is disk bound"
    case Saturated => "CPU is saturated"
    case UserBound => "CPU bound on user processes"
    case HighSystem => "High system/kernel CPU usage"
    case CpuNormal => "CPU utilization is normal"
  }

  /** The four CPU percentages. */
  datatype Shares = Shares(user: real, sys: real, idle: real, iowait: real)

  /** Each time as a percentage of their sum, or all 0.0 when the sum is not positive. */
  function CpuShares(user: real, sys: real, idle: real, iowait: real): (p: Shares)
    ensures user + sys + idle + iowait <= 0.0 ==> p == Shares(0.0, 0.0, 0.0, 0.0)
  {
    var total := user + sys + idle + iowait;
    if total > 0.0 then
      Shares(user / total * 100.0, sys / total * 100.0, idle / total * 100.0, iowait / total * 100.0)
    else Shares(0.0, 0.0, 0.0, 0.0)
  }

  /** With a positive total the percentages add up to 100; with non-negative times each lies in [0, 100]. */
  lemma CpuSharesBounds(user: real, sys: real, idle: real, iowait: real)
    ensures var p := CpuShares(user, sys, idle, iowait);
      user + sys + idle + iowait > 0.0 ==> p.user + p.sys + p.idle + p.iowait == 100.0
    ensures var p := CpuShares(user, sys, idle, iowait);
      user >= 0.0 && sys >= 0.0 && idle >= 0.0 && iowait >= 0.0 ==>
        0.0 <= p.user <= 100.0 && 0.0 <= p.sys <= 100.0 && 0.0 <= p.idle <= 100.0 && 0.0 <= p.iowait <= 100.0
  {
    var total := user + sys + idle + iowait;
    if total > 0.0 {
      PartsSum(user, sys, idle, iowait, total);
      if user >= 0.0 && sys >= 0.0 && idle >= 0.0 && iowait >= 0.0 {
        PartBound(user, total);
        PartBound(sys, total);
        PartBound(idle, total);
        PartBound(iowait, total);
      }
    }
  }

  /** Percentages of a total add up to 100. */
  lemma PartsSum(a: real, b: real, c: real, d: real, total: real)
    requires total > 0.0 && a + b + c + d == total
    ensures a / total * 100.0 + b / total * 100.0 + c / total * 100.0 + d / total * 100.0 == 100.0
  {
    DivAdd(a, b, total);
    DivAdd(a + b, c, total);
    DivAdd(a + b + c, d, total);
    assert total / total == 1.0;
  }

  lemma DivAdd(p: real, q: real, t: real)
    requires t != 0.0
    ensures p / t + q / t == (p + q) / t
  {
  }

  lemma PartBound(x: real, total: real)
    requires 0.0 <= x <= total && total > 0.0
    ensures 0.0 <= x / total * 100.0 <= 100.0
  {
    assert x / total <= 1.0;
  }

  /** The first-match threshold table of the CPU assessment. */
  function AssessCpu(p: Shares): (r: CpuAssessment)
    ensures r == Saturated ==> p.idle < 10.0 && p.iowait <= 20.0
    ensures r == UserBound ==> p.user > 70.0 && p.idle >= 10.0 && p.iowait <= 20.0
    ensures r == HighSystem ==> p.sys > 30.0 && p.user <= 70.0 && p.idle >= 10.0 && p.iowait <= 20.0
  {
    if p.iowait > 20.0 then DiskBound
    else if p.idle < 10.0 then Saturated
    else if p.user > 70.0 then UserBound
    else if p.sys > 30.0 then HighSystem
    else CpuNormal
  }

  /** An I/O wait share above 20% wins over every other reading, and a sample with no CPU time reads as saturated. */
  lemma AssessCpuPrecedence(p: Shares)
    ensures p.iowait > 20.0 ==> AssessCpu(p) == DiskBound
    ensures AssessCpu(p) == CpuNormal <==> p.iowait <= 20.0 && p.idle >= 10.0 && p.user <= 70.0 && p.sys <= 30.0
    ensures AssessCpu(Shares(0.0, 0.0, 0.0, 0.0)) == Saturated
  {
  }

  datatype CpuMetrics = CpuMetrics(userPercent: real, systemPercent: real, idlePercent: real, iowaitPercent: real,
                                   ncpu: int, assessment: CpuAssessment)

  /** `build_cpu_metrics(data)`. */
  function BuildCpuMetrics(data: Data): (r: Result<CpuMetrics, PyError>)
    ensures r.Ok? ==> r.value.assessment == AssessCpu(Shares(r.value.userPercent, r.value.systemPercent, r.value.idlePercent, r.value.iowaitPercent))
    ensures r.Ok? && InstancesOf(data, "hinv.ncpu") == [] ==> r.value.ncpu == 1
    ensures r.Ok? <==> GetFirstValue(data, "kernel.all.cpu.user", 0.0).Ok? && GetFirstValue(data, "kernel.all.cpu.sys", 0.0).Ok?
                       && GetFirstValue(data, "kernel.all.cpu.idle", 0.0).Ok? && GetFirstValue(data, "kernel.all.cpu.wait.total", 0.0).Ok?
                       && GetFirstValue(data, "hinv.ncpu", 1.0).Ok?
    ensures r.Ok? ==>
      var p := CpuShares(GetFirstValue(data, "kernel.all.cpu.user", 0.0).value, GetFirstValue(data, "kernel.all.cpu.sys", 0.0).value,
                         GetFirstValue(data, "kernel.all.cpu.idle", 0.0).value, GetFirstValue(data, "kernel.all.cpu.wait.total", 0.0).value);
      r.value.userPercent == p.user && r.value.systemPercent == p.sys && r.value.idlePercent == p.idle && r.value.iowaitPercent == p.iowait
    ensures r.Ok? ==> r.value.ncpu == Trunc(GetFirstValue(data, "hinv.ncpu", 1.0).value)
  {
    var user :- GetFirstValue(data, "kernel.all.cpu.user", 0.0);
    var sys :- GetFirstValue(data, "kernel.all.cpu.sys", 0.0);
    var idle :- GetFirstValue(data, "kernel.all.cpu.idle", 0.0);
    var iowait :- GetFirstValue(data, "kernel.all.cpu.wait.total", 0.0);
    var n :- GetFirstValue(data, "hinv.ncpu", 1.0);
    var p := CpuShares(user, sys, idle, iowait);
    Ok(CpuMetrics(p.user, p.sys, p.idle, p.iowait, Trunc(n), AssessCpu(p)))
  }

  /** The four percentages `get_cpu_metrics` reports add up to 100 when any time was sampled, and lie in [0, 100] for non-negative counters. */
  lemma CpuMetricsPercentages(data: Data)
    requires BuildCpuMetrics(data).Ok?
    ensures var m := BuildCpuMetrics(data).value;
      var user := GetFirstValue(data, "kernel.all.cpu.user", 0.0).value;
      var sys := GetFirstValue(data, "kernel.all.cpu.sys", 0.0).value;
      var idle := GetFirstValue(data, "kernel.all.cpu.idle", 0.0).value;
      var iowait := GetFirstValue(data, "kernel.all.cpu.wait.total", 0.0).value;
      (user + sys + idle + iowait > 0.0 ==> m.userPercent + m.systemPercent + m.idlePercent + m.iowaitPercent == 100.0)
      && (user >= 0.0 && sys >= 0.0 && idle >= 0.0 && iowait >= 0.0 ==>
            0.0 <= m.userPercent <= 100.0 && 0.0 <= m.systemPercent <= 100.0
            && 0.0 <= m.idlePercent <= 100.0 && 0.0 <= m.iowaitPercent <= 100.0)
  {
    CpuSharesBounds(GetFirstValue(data, "kernel.all.cpu.user", 0.0).value, GetFirstValue(data, "kernel.all.cpu.sys", 0.0).value,
                    GetFirstValue(data, "kernel.all.cpu.idle", 0.0).value, GetFirstValue(data, "kernel.all.cpu.wait.total", 0.0).value);
  }

  // --------------------------------------------------------------- memory

  datatype MemoryAssessment = HeavySwap | MemoryCritical | MemoryElevated | MemoryNormal

  function MemoryAssessmentText(a: MemoryAssessment): string
  {
    match a
    case HeavySwap => "Heavy swap usage - memory pressure"
    case MemoryCritical => "Memory usage is critical"
    case MemoryElevated => "Memory usage is elevated"
    case MemoryNormal => "Memory utilization is normal"
  }

  datatype MemoryMetrics = MemoryMetrics(totalBytes: int, usedBytes: int, freeBytes: int, availableBytes: int,
                                         cachedBytes: int, buffersBytes: int, swapUsedBytes: int, swapTotalBytes: int,
                                         usedPercent: real, assessment: MemoryAssessment)

  /** `int(get_first_value(data, metric)) * 1024`: a KiB reading in bytes. */
  function Kib(data: Data, metric: string): (r: Result<int, PyError>)
    ensures r.Ok? ==> r.value % 1024 == 0
    ensures r.Ok? <==> GetFirstValue(data, metric, 0.0).Ok?
  {
    var v :- GetFirstValue(data, metric, 0.0);
    Ok(Trunc(v) * 1024)
  }

  /** `used / total * 100`, or 0.0 when total is not positive. */
  function UsedPercent(used: int, total: int): (pct: real)
    ensures total <= 0 ==> pct == 0.0
  {
    if total > 0 then used as real / total as real * 100.0 else 0.0
  }

  lemma UsedPercentBounds(used: int, total: int)
    requires 0 <= used <= total
    ensures 0.0 <= UsedPercent(used, total) <= 100.0
  {
    if total > 0 {
      PartBound(used as real, total as real);
    }
  }

  /** The first-match threshold table of the memory assessment. */
  function AssessMemory(swapUsed: int, swapTotal: int, usedPercent: real): (r: MemoryAssessment)
    ensures r == MemoryNormal <==> swapUsed as real <= swapTotal as real * 0.5 && usedPercent <= 75.0
    ensures r == MemoryCritical ==> usedPercent > 90.0
    ensures r == MemoryElevated ==> 75.0 < usedPercent <= 90.0
  {
    if swapUsed as real > swapTotal as real * 0.5 then HeavySwap
    else if usedPercent > 90.0 then MemoryCritical
    else if usedPercent > 75.0 then MemoryElevated
    else MemoryNormal
  }

  /** Swap pressure wins over the usage level; with no heavy swap the level only grows with usage. */
  lemma AssessMemoryOrder(swapUsed: int, swapTotal: int, p1: real, p2: real)
    requires p1 <= p2
    ensures swapUsed as real > swapTotal as real * 0.5 ==> AssessMemory(swapUsed, swapTotal, p1) == HeavySwap
    ensures AssessMemory(swapUsed, swapTotal, p1) == MemoryCritical ==> AssessMemory(swapUsed, swapTotal, p2) == MemoryCritical
    ensures AssessMemory(swapUsed, swapTotal, p2) == MemoryNormal ==> AssessMemory(swapUsed, swapTotal, p1) == MemoryNormal
  {
  }

  /** `build_memory_metrics(data)`: used memory is total minus available. */
  function BuildMemoryMetrics(data: Data): (r: Result<MemoryMetrics, PyError>)
    ensures r.Ok? <==> Kib(data, "mem.physmem").Ok? && Kib(data, "mem.util.available").Ok? && Kib(data, "mem.util.free").Ok?
                       && Kib(data, "mem.util.cached").Ok? && Kib(data, "mem.util.bufmem").Ok?
                       && Kib(data, "mem.util.swapTotal").Ok? && Kib(data, "mem.util.swapFree").Ok?
    ensures r.Ok? ==> r.value.usedBytes == r.value.totalBytes - r.value.availableBytes
    ensures r.Ok? ==> r.value.usedPercent == UsedPercent(r.value.usedBytes, r.value.totalBytes)
    ensures r.Ok? ==> r.value.assessment == AssessMemory(r.value.swapUsedBytes, r.value.swapTotalBytes, r.value.usedPercent)
    ensures r.Ok? ==> Kib(data, "mem.util.swapFree") == Ok(r.value.swapTotalBytes - r.value.swapUsedBytes)
    ensures r.Ok? ==> r.value.totalBytes % 1024 == 0 && r.value.availableBytes % 1024 == 0
    ensures r.Ok? ==> Kib(data, "mem.physmem") == Ok(r.value.totalBytes) && Kib(data, "mem.util.available") == Ok(r.value.availableBytes)
                      && Kib(data, "mem.util.free") == Ok(r.value.freeBytes) && Kib(data, "mem.util.cached") == Ok(r.value.cachedBytes)
                      && Kib(data, "mem.util.bufmem") == Ok(r.value.buffersBytes) && Kib(data, "mem.util.swapTotal") == Ok(r.value.swapTotalBytes)
  {
    var total :- Kib(data, "mem.physmem");
    var available :- Kib(data, "mem.util.available");
    var free :- Kib(data, "mem.util.free");
    var cached :- Kib(data, "mem.util.cached");
    var buffers :- Kib(data, "mem.util.bufmem");
    var swapTotal :- Kib(data, "mem.util.swapTotal");
    var swapFree :- Kib(data, "mem.util.swapFree");
    var swapUsed := swapTotal - swapFree;
    var used := total - available;
    var pct := UsedPercent(used, total);
    Ok(MemoryMetrics(total, used, free, available, cached, buffers, swapUsed, swapTotal, pct,
                     AssessMemory(swapUsed, swapTotal, pct)))
  }

  /** The reported used percentage lies in [0, 100] whenever the available memory lies between zero and the total. */
  lemma MemoryMetricsUsedPercent(data: Data)
    requires BuildMemoryMetrics(data).Ok?
    requires 0 <= BuildMemoryMetrics(data).value.availableBytes <= BuildMemoryMetrics(data).value.totalBytes
    ensures 0.0 <= BuildMemoryMetrics(data).value.usedPercent <= 100.0
  {
    var m := BuildMemoryMetrics(data).value;
    UsedPercentBounds(m.usedBytes, m.totalBytes);
  }

  // ----------------------------------------------------------------- load

  datatype LoadAssessment = LoadVeryHigh(load1: real, ncpu: int) | LoadElevated(load1: real, ncpu: int) | LoadNormal

  /** The assessment text; `fmt1` renders `:.1f`. */
  function LoadAssessmentText(a: LoadAssessment, fmt1: real -> string): string
  {
    match a
    case LoadVeryHigh(l, n) => "Load is very high (" + fmt1(l) + " vs " + IntToDecimal(n) + " CPUs)"
    case LoadElevated(l, n) => "Load is elevated (" + fmt1(l) + " > " + IntToDecimal(n) + " CPUs)"
    case LoadNormal => "Load is normal"
  }

  datatype LoadMetrics = LoadMetrics(load1m: real, load5m: real, load15m: real, runnable: int, nprocs: int,
                                     assessment: LoadAssessment)

  /** Very high above twice the CPU count, elevated above the CPU count. */
  function AssessLoad(load1: real, ncpu: int): (r: LoadAssessment)
    ensures r == LoadNormal <==> load1 <= ncpu as real && load1 <= (ncpu * 2) as real
    ensures ncpu >= 0 ==> (r == LoadNormal <==> load1 <= ncpu as real)
    ensures r.LoadVeryHigh? <==> load1 > (ncpu * 2) as real
    ensures !r.LoadNormal? ==> r.load1 == load1 && r.ncpu == ncpu
  {
    if load1 > (ncpu * 2) as real then LoadVeryHigh(load1, ncpu)
    else if load1 > ncpu as real then LoadElevated(load1, ncpu)
    else LoadNormal
  }

  function LoadLevel(a: LoadAssessment): nat
  {
    match a
    case LoadNormal => 0
    case LoadElevated(_, _) => 1
    case LoadVeryHigh(_, _) => 2
  }

  /** A higher one-minute load never gives a milder assessment. */
  lemma AssessLoadMonotone(l1: real, l2: real, ncpu: int)
    requires l1 <= l2
    ensures LoadLevel(AssessLoad(l1, ncpu)) <= LoadLevel(AssessLoad(l2, ncpu))
  {
  }

  /** `float(load_data.get(key, 0.0))`. */
  function LoadAt(loads: seq<(InstId, Value)>, key: InstId): Result<real, PyError>
  {
    ToFloat(GetOr(loads, key, Float(0.0)))
  }

  /** `build_load_metrics(data)`: the averages under the integer instance keys 1, 5 and 15. */
  function BuildLoadMetrics(data: Data): (r: Result<LoadMetrics, PyError>)
    ensures r.Ok? <==> LoadAt(InstancesOf(data, "kernel.all.load"), IdInt(1)).Ok?
                       && LoadAt(InstancesOf(data, "kernel.all.load"), IdInt(5)).Ok?
                       && LoadAt(InstancesOf(data, "kernel.all.load"), IdInt(15)).Ok?
                       && GetFirstValue(data, "kernel.all.runnable", 0.0).Ok? && GetFirstValue(data, "kernel.all.nprocs", 0.0).Ok?
                       && GetFirstValue(data, "hinv.ncpu", 1.0).Ok?
    ensures r.Ok? ==> GetFirstValue(data, "hinv.ncpu", 1.0).Ok?
                      && r.value.assessment == AssessLoad(r.value.load1m, Trunc(GetFirstValue(data, "hinv.ncpu", 1.0).value))
    ensures r.Ok? && Get(InstancesOf(data, "kernel.all.load"), IdInt(1)).None? ==> r.value.load1m == 0.0
    ensures r.Ok? ==> LoadAt(InstancesOf(data, "kernel.all.load"), IdInt(1)) == Ok(r.value.load1m)
                      && LoadAt(InstancesOf(data, "kernel.all.load"), IdInt(5)) == Ok(r.value.load5m)
                      && LoadAt(InstancesOf(data, "kernel.all.load"), IdInt(15)) == Ok(r.value.load15m)
    ensures r.Ok? ==> GetFirstValue(data, "kernel.all.runnable", 0.0).Ok? && GetFirstValue(data, "kernel.all.nprocs", 0.0).Ok?
                      && r.value.runnable == Trunc(GetFirstValue(data, "kernel.all.runnable", 0.0).value)
                      && r.value.nprocs == Trunc(GetFirstValue(data, "kernel.all.nprocs", 0.0).value)
  {
    var loads := InstancesOf(data, "kernel.all.load");
    var load1 :- LoadAt(loads, IdInt(1));
    var load5 :- LoadAt(loads, IdInt(5));
    var load15 :- LoadAt(loads, IdInt(15));
    var runnable :- GetFirstValue(data, "kernel.all.runnable", 0.0);
    var nprocs :- GetFirstValue(data, "kernel.all.nprocs", 0.0);
    var n :- GetFirstValue(data, "hinv.ncpu", 1.0);
    Ok(LoadMetrics(load1, load5, load15, Trunc(runnable), Trunc(nprocs), AssessLoad(load1, Trunc(n))))
  }

  // ------------------------------------------------------ disk and network

  /** A byte rate against the two thresholds: 2 above 100,000,000, 1 above 10,000,000, else 0. */
  function ThroughputLevel(x: real): nat
  {
    if x > 100000000.0 then 2 else if x > 10000000.0 then 1 else 0
  }

  datatype DiskAssessment = DiskHeavy(readBytes: real, writeBytes: real) | DiskModerate | DiskLow

  function DiskAssessmentText(a: DiskAssessment, fmt0: real -> string): string
  {
    match a
    case DiskHeavy(r, w) => "Heavy disk I/O (" + fmt0(r / 1000000.0) + " MB/s read, " + fmt0(w / 1000000.0) + " MB/s write)"
    case DiskModerate => "Moderate disk activity"
    case DiskLow => "Disk I/O is low"
  }

  function AssessDisk(readBytes: real, writeBytes: real): (r: DiskAssessment)
    ensures r == DiskLow <==> readBytes <= 10000000.0 && writeBytes <= 10000000.0
    ensures r.DiskHeavy? <==> readBytes > 100000000.0 || writeBytes > 100000000.0
    ensures r.DiskHeavy? ==> r.readBytes == readBytes && r.writeBytes == writeBytes
  {
    if readBytes > 100000000.0 || writeBytes > 100000000.0 then DiskHeavy(readBytes, writeBytes)
    else if readBytes > 10000000.0 || writeBytes > 10000000.0 then DiskModerate
    else DiskLow
  }

  function DiskLevel(a: DiskAssessment): nat
  {
    match a
    case DiskLow => 0
    case DiskModerate => 1
    case DiskHeavy(_, _) => 2
  }

  /** The disk level is the larger of the read level and the write level. */
  lemma AssessDiskIsMax(readBytes: real, writeBytes: real)
    ensures DiskLevel(AssessDisk(readBytes, writeBytes)) ==
            if ThroughputLevel(readBytes) >= ThroughputLevel(writeBytes) then ThroughputLevel(readBytes) else ThroughputLevel(writeBytes)
  {
  }

  datatype DiskMetrics = DiskMetrics(readBytesPerSec: real, writeBytesPerSec: real, readsPerSec: real, writesPerSec: real,
                                     assessment: DiskAssessment)

  /** `build_disk_metrics(data)`. */
  function BuildDiskMetrics(data: Data): (r: Result<DiskMetrics, PyError>)
    ensures r.Ok? <==> GetFirstValue(data, "disk.all.read_bytes", 0.0).Ok? && GetFirstValue(data, "disk.all.write_bytes", 0.0).Ok?
                       && GetFirstValue(data, "disk.all.read", 0.0).Ok? && GetFirstValue(data, "disk.all.write", 0.0).Ok?
    ensures r.Ok? ==> r.value.assessment == AssessDisk(r.value.readBytesPerSec, r.value.writeBytesPerSec)
    ensures r.Ok? ==> GetFirstValue(data, "disk.all.read_bytes", 0.0) == Ok(r.value.readBytesPerSec)
    ensures r.Ok? ==> GetFirstValue(data, "disk.all.write_bytes", 0.0) == Ok(r.value.writeBytesPerSec)
    ensures r.Ok? ==> GetFirstValue(data, "disk.all.read", 0.0) == Ok(r.value.readsPerSec)
                      && GetFirstValue(data, "disk.all.write", 0.0) == Ok(r.value.writesPerSec)
  {
    var readBytes :- GetFirstValue(data, "disk.all.read_bytes", 0.0);
    var writeBytes :- GetFirstValue(data, "disk.all.write_bytes", 0.0);
    var readOps :- GetFirstValue(data, "disk.all.read", 0.0);
    var writeOps :- GetFirstValue(data, "disk.all.write", 0.0);
    Ok(DiskMetrics(readBytes, writeBytes, readOps, writeOps, AssessDisk(readBytes, writeBytes)))
  }

  datatype NetworkAssessment = NetworkHigh(total: real) | NetworkModerate | NetworkLow

  function NetworkAssessmentText(a: NetworkAssessment, fmt0: real -> string): string
  {
    match a
    case NetworkHigh(t) => "High network throughput (" + fmt0(t / 1000000.0) + " MB/s)"
    case NetworkModerate => "Moderate network activity"
    case NetworkLow => "Network I/O is low"
  }

  function AssessNetwork(inBytes: real, outBytes: real): (r: NetworkAssessment)
    ensures r == NetworkLow <==> inBytes + outBytes <= 10000000.0
    ensures r.NetworkHigh? <==> inBytes + outBytes > 100000000.0
    ensures r.NetworkHigh? ==> r.total == inBytes + outBytes
  {
    var total := inBytes + outBytes;
    if total > 100000000.0 then NetworkHigh(total)
    else if total > 10000000.0 then NetworkModerate
    else NetworkLow
  }

  function NetworkLevel(a: NetworkAssessment): nat
  {
    match a
    case NetworkLow => 0
    case NetworkModerate => 1
    case NetworkHigh(_) => 2
  }

  /** Network throughput uses the disk thresholds on the combined in+out rate. */
  lemma AssessNetworkLevel(inBytes: real, outBytes: real)
    ensures NetworkLevel(AssessNetwork(inBytes, outBytes)) == ThroughputLevel(inBytes + outBytes)
    ensures AssessNetwork(inBytes, outBytes) == AssessNetwork(outBytes, inBytes)
  {
  }

  datatype NetworkMetrics = NetworkMetrics(inBytesPerSec: real, outBytesPerSec: real, inPacketsPerSec: real,
                                           outPacketsPerSec: real, assessment: NetworkAssessment)

  /** `build_network_metrics(data)`: every rate is summed over all interfaces. */
  function BuildNetworkMetrics(data: Data): (r: Result<NetworkMetrics, PyError>)
    ensures r.Ok? <==> SumInstances(data, "network.interface.in.bytes").Ok? && SumInstances(data, "network.interface.out.bytes").Ok?
                       && SumInstances(data, "network.interface.in.packets").Ok?
                       && SumInstances(data, "network.interface.out.packets").Ok?
    ensures r.Ok? ==> r.value.assessment == AssessNetwork(r.value.inBytesPerSec, r.value.outBytesPerSec)
    ensures r.Ok? ==> SumInstances(data, "network.interface.in.bytes") == Ok(r.value.inBytesPerSec)
    ensures r.Ok? ==> SumInstances(data, "network.interface.out.bytes") == Ok(r.value.outBytesPerSec)
    ensures r.Ok? ==> SumInstances(data, "network.interface.in.packets") == Ok(r.value.inPacketsPerSec)
                      && SumInstances(data, "network.interface.out.packets") == Ok(r.value.outPacketsPerSec)
  {
    var inBytes :- SumInstances(data, "network.interface.in.bytes");
    var outBytes :- SumInstances(data, "network.interface.out.bytes");
    var inPackets :- SumInstances(data, "network.interface.in.packets");
    var outPackets :- SumInstances(data, "network.interface.out.packets");
    Ok(NetworkMetrics(inBytes, outBytes, inPackets, outPackets, AssessNetwork(inBytes, outBytes)))
  }

  // ------------------------------------------------------------ processes

  datatype ProcessInfo = ProcessInfo(pid: int, command: string, cmdline: string, cpuPercent: Option<real>,
                                     rssBytes: int, rssPercent: real,
                                     ioReadBytesPerSec: Option<real>, ioWriteBytesPerSec: Option<real>)

  /** The eight per-process instance maps. */
  datatype ProcessSources = ProcessSources(pid: seq<(InstId, Value)>, cmd: seq<(InstId, Value)>, args: seq<(InstId, Value)>,
                                           rss: seq<(InstId, Value)>, utime: seq<(InstId, Value)>, stime: seq<(InstId, Value)>,
                                           ioRead: seq<(InstId, Value)>, ioWrite: seq<(InstId, Value)>)

  /** `_extract_process_data_sources(data)`. */
  function ExtractProcessDataSources(data: Data): (r: ProcessSources)
    ensures Get(data, "proc.psinfo.pid").None? ==> r.pid == []
    ensures Get(data, "proc.psinfo.cmd").None? ==> r.cmd == []
    ensures Get(data, "proc.psinfo.psargs").None? ==> r.args == []
    ensures Get(data, "proc.memory.rss").None? ==> r.rss == []
    ensures Get(data, "proc.psinfo.utime").None? ==> r.utime == []
    ensures Get(data, "proc.psinfo.stime").None? ==> r.stime == []
    ensures Get(data, "proc.io.read_bytes").None? ==> r.ioRead == []
    ensures Get(data, "proc.io.write_bytes").None? ==> r.ioWrite == []
  {
    ProcessSources(InstancesOf(data, "proc.psinfo.pid"), InstancesOf(data, "proc.psinfo.cmd"),
                   InstancesOf(data, "proc.psinfo.psargs"), InstancesOf(data, "proc.memory.rss"),
                   InstancesOf(data, "proc.psinfo.utime"), InstancesOf(data, "proc.psinfo.stime"),
                   InstancesOf(data, "proc.io.read_bytes"), InstancesOf(data, "proc.io.write_bytes"))
  }

  /** `_calculate_cpu_percent`: None only when CPU is not the sort key and there is no utime data. */
  function CalculateCpuPercent(id: InstId, utime: seq<(InstId, Value)>, stime: seq<(InstId, Value)>, includeCpu: bool)
    : (r: Result<Option<real>, PyError>)
    ensures r.Ok? ==> (r.value.None? <==> !includeCpu && |utime| == 0)
    ensures r.Err? <==> (includeCpu || |utime| > 0) && !(Numeric(GetOr(utime, id, Int(0))) && Numeric(GetOr(stime, id, Int(0))))
    ensures r.Ok? && r.value.Some? ==>
      Numeric(GetOr(utime, id, Int(0))) && Numeric(GetOr(stime, id, Int(0)))
      && r.value.value * 10.0 == NumberOf(GetOr(utime, id, Int(0))) + NumberOf(GetOr(stime, id, Int(0)))
  {
    if !includeCpu && |utime| == 0 then Ok(None)
    else
      var u :- ToFloat(GetOr(utime, id, Int(0)));
      var s :- ToFloat(GetOr(stime, id, Int(0)));
      Ok(Some((u + s) / 10.0))
  }

  /** `_calculate_io_metrics`: both None only when I/O is not the sort key and there is no read data. */
  function CalculateIoMetrics(id: InstId, ioRead: seq<(InstId, Value)>, ioWrite: seq<(InstId, Value)>, includeIo: bool)
    : (r: Result<(Option<real>, Option<real>), PyError>)
    ensures r.Ok? ==> (r.value.0.None? <==> !includeIo && |ioRead| == 0)
    ensures r.Err? <==> (includeIo || |ioRead| > 0) && !(Numeric(GetOr(ioRead, id, Int(0))) && Numeric(GetOr(ioWrite, id, Int(0))))
    ensures r.Ok? ==> (r.value.1.None? <==> !includeIo && |ioRead| == 0)
    ensures r.Ok? && r.value.0.Some? ==> ToFloat(GetOr(ioRead, id, Int(0))) == Ok(r.value.0.value)
    ensures r.Ok? && r.value.1.Some? ==> ToFloat(GetOr(ioWrite, id, Int(0))) == Ok(r.value.1.value)
  {
    if !includeIo && |ioRead| == 0 then Ok((None, None))
    else
      var rd :- ToFloat(GetOr(ioRead, id, Int(0)));
      var wr :- ToFloat(GetOr(ioWrite, id, Int(0)));
      Ok((Some(rd), Some(wr)))
  }

  /** The resident size as a percentage of the total memory, 0 when the total is not positive. */
  function RssPercent(rss: int, totalMem: real): (pct: real)
    ensures totalMem <= 0.0 ==> pct == 0.0
    ensures totalMem > 0.0 ==> pct * totalMem == rss as real * 100.0
  {
    if totalMem > 0.0 then rss as real / totalMem * 100.0 else 0.0
  }

  /**
    `round(x, 1)` over exact reals: the nearest multiple of 0.1, an exact
    half going to the even tenth.
  */
  function Round1(x: real): real
  {
    var t := x * 10.0;
    var n := (t + 0.5).Floor;
    var m := if n as real - t == 0.5 && n % 2 != 0 then n - 1 else n;
    m as real / 10.0
  }

  /** Rounding moves a figure by at most 0.05, keeps 0.0, and never reverses an order. */
  lemma Round1Props(x: real, y: real)
    ensures -0.05 <= Round1(x) - x <= 0.05
    ensures Round1(0.0) == 0.0
    ensures x <= y ==> Round1(x) <= Round1(y)
  {
    var tx, ty := x * 10.0, y * 10.0;
    var nx, ny := (tx + 0.5).Floor, (ty + 0.5).Floor;
    if x <= y {
      assert tx <= ty;
      assert nx <= ny;
      if nx == ny && ny as real - ty == 0.5 && ny % 2 != 0 {
        assert nx as real - tx == 0.5;
      }
    }
  }

  /** `round(x, 1) if x is not None else None`. */
  function RoundOpt(x: Option<real>): Option<real>
  {
    if x.Some? then Some(Round1(x.value)) else None
  }

  /** `_build_process_info`: None for a non-positive pid; `floatRepr` renders `str()` of a float. */
  function BuildProcessInfo(id: InstId, src: ProcessSources, sortBy: string, totalMem: real, floatRepr: real -> string)
    : (r: Result<Option<ProcessInfo>, PyError>)
    ensures r.Ok? ==> ToInt(GetOr(src.pid, id, Int(0))).Ok?
    ensures r.Ok? && r.value.Some? ==> r.value.value.pid == ToInt(GetOr(src.pid, id, Int(0))).value > 0
    ensures r.Ok? && r.value.Some? ==> |r.value.value.cmdline| <= 200
    ensures r.Ok? && r.value.Some? ==> r.value.value.rssBytes % 1024 == 0
    ensures r.Ok? && r.value.Some? && Get(src.cmd, id).None? ==> r.value.value.command == "unknown"
    ensures r.Ok? && r.value.Some? && totalMem <= 0.0 ==> r.value.value.rssPercent == 0.0
    ensures r.Ok? && r.value.Some? ==> (r.value.value.cpuPercent.None? <==> sortBy != "cpu" && |src.utime| == 0)
    ensures r.Ok? && r.value.Some? ==> (r.value.value.ioReadBytesPerSec.None? <==> sortBy != "io" && |src.ioRead| == 0)
    ensures r.Ok? && r.value.Some? ==> (r.value.value.ioWriteBytesPerSec.None? <==> sortBy != "io" && |src.ioRead| == 0)
    ensures ToInt(GetOr(src.pid, id, Int(0))).Ok? && ToInt(GetOr(src.pid, id, Int(0))).value <= 0 ==> r == Ok(None)
    ensures r.Ok? <==> ToInt(GetOr(src.pid, id, Int(0))).Ok?
                       && (ToInt(GetOr(src.pid, id, Int(0))).value <= 0
                           || (ToInt(GetOr(src.rss, id, Int(0))).Ok?
                               && CalculateCpuPercent(id, src.utime, src.stime, sortBy == "cpu").Ok?
                               && CalculateIoMetrics(id, src.ioRead, src.ioWrite, sortBy == "io").Ok?))
    ensures r.Ok? && ToInt(GetOr(src.pid, id, Int(0))).value > 0 ==> r.value.Some?
    ensures r.Ok? && r.value.Some? ==>
      var info := r.value.value;
      info.command == PyStr(GetOr(src.cmd, id, Text("unknown")), floatRepr)
      && info.cmdline == Take(PyStr(GetOr(src.args, id, Text(info.command)), floatRepr), 200)
      && ToInt(GetOr(src.rss, id, Int(0))).Ok? && info.rssBytes == ToInt(GetOr(src.rss, id, Int(0))).value * 1024
      && info.rssPercent == Round1(RssPercent(info.rssBytes, totalMem))
      && CalculateCpuPercent(id, src.utime, src.stime, sortBy == "cpu").Ok?
      && info.cpuPercent == RoundOpt(CalculateCpuPercent(id, src.utime, src.stime, sortBy == "cpu").value)
      && CalculateIoMetrics(id, src.ioRead, src.ioWrite, sortBy == "io").Ok?
      && info.ioReadBytesPerSec == RoundOpt(CalculateIoMetrics(id, src.ioRead, src.ioWrite, sortBy == "io").value.0)
      && info.ioWriteBytesPerSec == RoundOpt(CalculateIoMetrics(id, src.ioRead, src.ioWrite, sortBy == "io").value.1)
  {
    var pid :- ToInt(GetOr(src.pid, id, Int(0)));
    if pid <= 0 then Ok(None)
    else
      var cmd := PyStr(GetOr(src.cmd, id, Text("unknown")), floatRepr);
      var cmdline := Take(PyStr(GetOr(src.args, id, Text(cmd)), floatRepr), 200);
      var rssKib :- ToInt(GetOr(src.rss, id, Int(0)));
      var rss := rssKib * 1024;
      Round1Props(0.0, 0.0);
      var rssPct := Round1(RssPercent(rss, totalMem));
      var cpu :- CalculateCpuPercent(id, src.utime, src.stime, sortBy == "cpu");
      var io :- CalculateIoMetrics(id, src.ioRead, src.ioWrite, sortBy == "io");
      Ok(Some(ProcessInfo(pid, cmd, cmdline, RoundOpt(cpu), rss, rssPct, RoundOpt(io.0), RoundOpt(io.1))))
  }

  /** `_build_process_info` for the given sources, as a function of the instance id. */
  function ProcessStep(src: ProcessSources, sortBy: string, totalMem: real, floatRepr: real -> string)
    : InstId -> Result<Option<ProcessInfo>, PyError>
  {
    id => BuildProcessInfo(id, src, sortBy, totalMem, floatRepr)
  }

  /** The loop of `build_process_list`: apply `step` to each id in order, keep the results that are present, stop at the first error. */
  function FilterMapAll<A, B, E>(xs: seq<A>, step: A -> Result<Option<B>, E>): Result<seq<B>, E>
  {
    if |xs| == 0 then Ok([])
    else
      var prev :- FilterMapAll(xs[..|xs| - 1], step);
      var p :- step(xs[|xs| - 1]);
      Ok(if p.Some? then prev + [p.value] else prev)
  }

  /** The processes built from `ids`, in order. */
  function BuildAll(ids: seq<InstId>, src: ProcessSources, sortBy: string, totalMem: real, floatRepr: real -> string)
    : Result<seq<ProcessInfo>, PyError>
  {
    FilterMapAll(ids, ProcessStep(src, sortBy, totalMem, floatRepr))
  }

  /** Once a prefix raises, the whole run raises the same error. */
  lemma {:induction false} FilterMapPrefixError<A, B, E>(xs: seq<A>, k: nat, step: A -> Result<Option<B>, E>)
    requires k <= |xs|
    requires FilterMapAll(xs[..k], step).Err?
    ensures FilterMapAll(xs, step) == FilterMapAll(xs[..k], step)
  {
    if k < |xs| {
      assert xs[..|xs| - 1][..k] == xs[..k];
      FilterMapPrefixError(xs[..|xs| - 1], k, step);
    } else {
      assert xs[..k] == xs;
    }
  }

  /** One more element extends the run by that element's result, if any. */
  lemma FilterMapStep<A, B, E>(xs: seq<A>, i: nat, step: A -> Result<Option<B>, E>)
    requires i < |xs|
    requires FilterMapAll(xs[..i], step).Ok? && step(xs[i]).Ok?
    ensures var prev := FilterMapAll(xs[..i], step).value;
      var p := step(xs[i]).value;
      FilterMapAll(xs[..i + 1], step) == Ok(if p.Some? then prev + [p.value] else prev)
  {
    assert xs[..i + 1][..i] == xs[..i];
  }

  /** The loop of `build_process_list` over any ids and step: results kept in order, the first error raised. */
  method CollectPresent<A, B, E>(ids: seq<A>, step: A -> Result<Option<B>, E>) returns (r: Result<seq<B>, E>)
    ensures r == FilterMapAll(ids, step)
  {
    var processes: seq<B> := [];
    var i := 0;
    while i < |ids|
      invariant 0 <= i <= |ids|
      invariant FilterMapAll(ids[..i], step) == Ok(processes)
    {
      var p := step(ids[i]);
      if p.Err? {
        assert ids[..i + 1][..i] == ids[..i];
        FilterMapPrefixError(ids, i + 1, step);
        return Err(p.error);
      }
      FilterMapStep(ids, i, step);
      if p.value.Some? {
        processes := processes + [p.value.value];
      }
      i := i + 1;
    }
    assert ids[..i] == ids;
    return Ok(processes);
  }

  /** `build_process_list(data, sort_by, total_mem, ncpu)`: one entry per pid instance with a positive pid, in order. */
  method BuildProcessList(data: Data, sortBy: string, totalMem: real, ncpu: int, floatRepr: real -> string)
    returns (r: Result<seq<ProcessInfo>, PyError>)
    ensures r == BuildAll(Keys(ExtractProcessDataSources(data).pid), ExtractProcessDataSources(data), sortBy, totalMem, floatRepr)
  {
    var src := ExtractProcessDataSources(data);
    r := CollectPresent(Keys(src.pid), ProcessStep(src, sortBy, totalMem, floatRepr));
  }

  /** `int(v) > 0`. */
  predicate PositivePid(v: Value)
  {
    Numeric(v) && Trunc(NumberOf(v)) > 0
  }

  /** The number of elements of `xs` that satisfy `keep`. */
  function CountWhere<A>(xs: seq<A>, keep: A -> bool): (n: nat)
    ensures n <= |xs|
  {
    if |xs| == 0 then 0 else CountWhere(xs[..|xs| - 1], keep) + (if keep(xs[|xs| - 1]) then 1 else 0)
  }

  /** When `step` yields a value exactly for the elements that satisfy `keep`, a successful run keeps that many. */
  lemma {:induction false} FilterMapCount<A, B, E>(xs: seq<A>, step: A -> Result<Option<B>, E>, keep: A -> bool)
    requires FilterMapAll(xs, step).Ok?
    requires forall x | x in xs && step(x).Ok? :: step(x).value.Some? <==> keep(x)
    ensures |FilterMapAll(xs, step).value| == CountWhere(xs, keep)
  {
    if |xs| > 0 {
      var init := xs[..|xs| - 1];
      assert forall x | x in init :: x in xs;
      FilterMapCount(init, step, keep);
      assert xs[|xs| - 1] in xs;
    }
  }

  /** What every built process satisfies. */
  ghost predicate WellFormed(p: ProcessInfo, src: ProcessSources, sortBy: string)
  {
    p.pid > 0
    && (p.cpuPercent.None? <==> sortBy != "cpu" && |src.utime| == 0)
    && (p.ioReadBytesPerSec.None? <==> sortBy != "io" && |src.ioRead| == 0)
  }

  /**
    Every built process has a positive pid, and its CPU and I/O figures are
    None exactly when they are not the sort key and no data for them was fetched.
  */
  lemma {:induction false} BuildAllWellFormed(ids: seq<InstId>, src: ProcessSources, sortBy: string, totalMem: real,
                                              floatRepr: real -> string)
    requires BuildAll(ids, src, sortBy, totalMem, floatRepr).Ok?
    ensures forall p | p in BuildAll(ids, src, sortBy, totalMem, floatRepr).value :: WellFormed(p, src, sortBy)
  {
    if |ids| > 0 {
      BuildAllWellFormed(ids[..|ids| - 1], src, sortBy, totalMem, floatRepr);
      var p := BuildProcessInfo(ids[|ids| - 1], src, sortBy, totalMem, floatRepr);
      assert ProcessStep(src, sortBy, totalMem, floatRepr)(ids[|ids| - 1]) == p;
    }
  }

  /** Whether the pid instance `id` holds a positive pid (`int(pid_data.get(id, 0)) > 0`). */
  function HasPositivePid(src: ProcessSources): InstId -> bool
  {
    id => PositivePid(GetOr(src.pid, id, Int(0)))
  }

  /** The list holds one process for each instance whose pid is positive, so it is never longer than the pid map. */
  lemma BuildAllCount(ids: seq<InstId>, src: ProcessSources, sortBy: string, totalMem: real, floatRepr: real -> string)
    requires BuildAll(ids, src, sortBy, totalMem, floatRepr).Ok?
    ensures |BuildAll(ids, src, sortBy, totalMem, floatRepr).value| == CountWhere(ids, HasPositivePid(src)) <= |ids|
  {
    var step := ProcessStep(src, sortBy, totalMem, floatRepr);
    forall id | id in ids && step(id).Ok? ensures step(id).value.Some? <==> HasPositivePid(src)(id) {
      PresentIffPositive(id, src, sortBy, totalMem, floatRepr);
    }
    FilterMapCount(ids, step, HasPositivePid(src));
  }

  /** A successful build yields a process exactly when the pid is positive. */
  lemma PresentIffPositive(id: InstId, src: ProcessSources, sortBy: string, totalMem: real, floatRepr: real -> string)
    ensures var r := ProcessStep(src, sortBy, totalMem, floatRepr)(id);
      r.Ok? ==> (r.value.Some? <==> HasPositivePid(src)(id))
  {
    var r := BuildProcessInfo(id, src, sortBy, totalMem, floatRepr);
    assert ProcessStep(src, sortBy, totalMem, floatRepr)(id) == r;
    assert HasPositivePid(src)(id) == PositivePid(GetOr(src.pid, id, Int(0)));
  }

  /** `get_sort_key(proc, sort_by)`: the value the process list is ordered by. */
  function SortKey(p: ProcessInfo, sortBy: string): (k: real)
    ensures sortBy == "cpu" && p.cpuPercent.Some? ==> k == p.cpuPercent.value
    ensures sortBy == "memory" ==> k == p.rssBytes as real
    ensures sortBy == "io" ==> k == p.ioReadBytesPerSec.GetOr(0.0) + p.ioWriteBytesPerSec.GetOr(0.0)
    ensures sortBy != "cpu" && sortBy != "memory" && sortBy != "io" ==> k == 0.0
  {
    if sortBy == "cpu" then p.cpuPercent.GetOr(0.0)
    else if sortBy == "memory" then p.rssBytes as real
    else if sortBy == "io" then p.ioReadBytesPerSec.GetOr(0.0) + p.ioWriteBytesPerSec.GetOr(0.0)
    else 0.0
  }

  /** Missing CPU or I/O figures count as 0, so a sort key is never below the figures that are present. */
  lemma SortKeyMissingAsZero(p: ProcessInfo)
    ensures p.cpuPercent.None? ==> SortKey(p, "cpu") == 0.0
    ensures p.ioReadBytesPerSec.None? && p.ioWriteBytesPerSec.None? ==> SortKey(p, "io") == 0.0
    ensures p.ioReadBytesPerSec.Some? && p.ioWriteBytesPerSec.Some? && p.ioWriteBytesPerSec.value >= 0.0 ==>
              SortKey(p, "io") >= p.ioReadBytesPerSec.value
  {
  }

  datatype ProcessAssessment =
    | NoProcesses
    | CpuBound(command: string, cpu: real)
    | TopCpu(command: string, cpu: real)
    | TopMemory(command: string, rssPercent: real)
    | TopIo(command: string, totalIo: real)
    | TopProcess(command: string)

  function ProcessAssessmentText(a: ProcessAssessment, fmt0: real -> string, fmt1: real -> string): string
  {
    match a
    case NoProcesses => "No processes found"
    case CpuBound(c, x) => c + " is CPU-bound (" + fmt0(x) + "%)"
    case TopCpu(c, x) => "Top CPU: " + c + " (" + fmt0(x) + "%)"
    case TopMemory(c, x) => "Top memory: " + c + " (" + fmt1(x) + "%)"
    case TopIo(c, x) => "Top I/O: " + c + " (" + fmt1(x / 1000000.0) + " MB/s)"
    case TopProcess(c) => "Top process: " + c
  }

  /** `assess_processes(processes, sort_by, ncpu)`: formatting a missing CPU figure with `:.0f` raises TypeError. */
  function AssessProcesses(processes: seq<ProcessInfo>, sortBy: string, ncpu: int): (r: Result<ProcessAssessment, PyError>)
    ensures |processes| == 0 ==> r == Ok(NoProcesses)
    ensures r.Err? <==> |processes| > 0 && sortBy == "cpu" && processes[0].cpuPercent.None?
    ensures r.Ok? && r.value != NoProcesses ==> r.value.command == processes[0].command
    ensures |processes| > 0 && sortBy == "cpu" && processes[0].cpuPercent.Some? ==>
              r.Ok? && (r.value.CpuBound? || r.value.TopCpu?) && r.value.cpu == processes[0].cpuPercent.value
    ensures |processes| > 0 && sortBy == "memory" ==> r == Ok(TopMemory(processes[0].command, processes[0].rssPercent))
    ensures |processes| > 0 && sortBy == "io" ==>
              r == Ok(TopIo(processes[0].command,
                            processes[0].ioReadBytesPerSec.GetOr(0.0) + processes[0].ioWriteBytesPerSec.GetOr(0.0)))
    ensures |processes| > 0 && sortBy != "cpu" && sortBy != "memory" && sortBy != "io" ==> r == Ok(TopProcess(processes[0].command))
  {
    if |processes| == 0 then Ok(NoProcesses)
    else
      var top := processes[0];
      if sortBy == "cpu" then
        match top.cpuPercent
        case None => Err(Other("TypeError", "unsupported format string passed to NoneType.__format__"))
        case Some(c) =>
          if c != 0.0 && c > (ncpu * 100) as real * 0.5 then Ok(CpuBound(top.command, c))
          else Ok(TopCpu(top.command, c))
      else if sortBy == "memory" then Ok(TopMemory(top.command, top.rssPercent))
      else if sortBy == "io" then Ok(TopIo(top.command, top.ioReadBytesPerSec.GetOr(0.0) + top.ioWriteBytesPerSec.GetOr(0.0)))
      else Ok(TopProcess(top.command))
  }

  /**
    The CPU-bound test reads the rounded figure: a process at 200.04% on four
    CPUs is stored as 200.0%, which is not above the 200% line.
  */
  lemma CpuBoundReadsRounded(p: ProcessInfo)
    requires p.cpuPercent == Some(Round1(200.04))
    ensures AssessProcesses([p], "cpu", 4) == Ok(TopCpu(p.command, 200.0))
  {
    assert (2000.4 + 0.5).Floor == 2000;
  }

  /**
    Only the first process is described, and it is CPU-bound exactly when it
    uses more than half of all CPUs' capacity.
  */
  lemma AssessProcessesTopOnly(processes: seq<ProcessInfo>, sortBy: string, ncpu: int)
    requires |processes| > 0
    ensures AssessProcesses(processes, sortBy, ncpu) == AssessProcesses([processes[0]], sortBy, ncpu)
    ensures sortBy == "cpu" && processes[0].cpuPercent.Some? && ncpu >= 0 ==>
              (AssessProcesses(processes, sortBy, ncpu).value.CpuBound? <==> processes[0].cpuPercent.value > ncpu as real * 50.0)
  {
  }
}
