/**
  The network protocol tool of `tools/network.py`: the metrics it requests,
  which of them are rated, and the issue list behind its overall assessment.
  The statistics records carry only the fields the assessment reads; the
  `:.0f` rendering of a rate is the parameter `fmt0`.
*/
module NetworkTools {
  import opened Strings

  // ------------------------------------------------------------ constants

  const TcpMetrics: seq<string> :=
    ["network.tcp.activeopens", "network.tcp.passiveopens", "network.tcp.attemptfails", "network.tcp.estabresets",
     "network.tcp.currestab", "network.tcp.retranssegs", "network.tcp.inerrs", "network.tcp.outrsts"]
  const UdpMetrics: seq<string> :=
    ["network.udp.indatagrams", "network.udp.outdatagrams", "network.udp.inerrors", "network.udp.noports"]
  const InterfaceErrorMetrics: seq<string> :=
    ["network.interface.in.errors", "network.interface.out.errors", "network.interface.in.drops"]

  /** The counters among the requested metrics: all of them but the established-connection gauge. */
  const CounterMetrics: set<string> :=
    {"network.tcp.activeopens", "network.tcp.passiveopens", "network.tcp.attemptfails", "network.tcp.estabresets",
     "network.tcp.retranssegs", "network.tcp.inerrs", "network.tcp.outrsts",
     "network.udp.indatagrams", "network.udp.outdatagrams", "network.udp.inerrors", "network.udp.noports",
     "network.interface.in.errors", "network.interface.out.errors", "network.interface.in.drops"}

  /** The metric list `get_network_stats` requests. */
  function AllMetrics(): (all: seq<string>)
    ensures |all| == 15 && all[4] == "network.tcp.currestab"
  {
    TcpMetrics + UdpMetrics + InterfaceErrorMetrics
  }

  /** The counters are the requested metrics at every position but the gauge's. */
  lemma CountersByPosition()
    ensures var all := AllMetrics();
      CounterMetrics == {all[0], all[1], all[2], all[3], all[5], all[6], all[7], all[8], all[9], all[10],
                         all[11], all[12], all[13], all[14]}
  {
  }

  /** Every counter is a requested metric, and `network.tcp.currestab` is requested but is no counter. */
  lemma CountersAreRequested()
    ensures forall m | m in CounterMetrics :: m in AllMetrics() && m != "network.tcp.currestab"
    ensures "network.tcp.currestab" in AllMetrics() && "network.tcp.currestab" !in CounterMetrics
  {
    var all := AllMetrics();
    CountersByPosition();
    assert forall i | 0 <= i < 15 && i != 4 :: all[i] != "network.tcp.currestab";
  }

  /** Every requested metric but `network.tcp.currestab` is a counter. */
  lemma OthersRated()
    ensures forall i | 0 <= i < |AllMetrics()| && i != 4 :: AllMetrics()[i] in CounterMetrics
  {
    CountersByPosition();
  }

  // ----------------------------------------------------------- assessment

  /** The figures of the TCP statistics the assessment reads. */
  datatype TcpStats = TcpStats(retransmitsPerSec: real, attemptFailsPerSec: real, estabResetsPerSec: real)

  /** The figure of the UDP statistics the assessment reads. */
  datatype UdpStats = UdpStats(inErrorsPerSec: real)

  datatype InterfaceErrors = InterfaceErrors(name: string, inErrorsPerSec: real, outErrorsPerSec: real,
                                             inDropsPerSec: real)

  datatype Issue =
    | HeavyRetransmits(rate: real)
    | ModerateRetransmits(rate: real)
    | ConnectionFailures(rate: real)
    | FrequentResets(rate: real)
    | UdpReceiveErrors(rate: real)
    | InterfaceErrorsOn(interfaces: seq<string>)

  function IssueText(issue: Issue, fmt0: real -> string): string
  {
    match issue
    case HeavyRetransmits(r) => "heavy TCP retransmissions (" + fmt0(r) + "/s)"
    case ModerateRetransmits(r) => "moderate TCP retransmissions (" + fmt0(r) + "/s)"
    case ConnectionFailures(r) => "high TCP connection failures (" + fmt0(r) + "/s)"
    case FrequentResets(r) => "frequent TCP resets (" + fmt0(r) + "/s)"
    case UdpReceiveErrors(r) => "UDP receive errors (" + fmt0(r) + "/s)"
    case InterfaceErrorsOn(names) => "interface errors on " + Join(names, ", ")
  }

  /** The position of an issue's check in the assessment; both retransmission issues come from one check. */
  function Rank(issue: Issue): nat
  {
    match issue
    case HeavyRetransmits(_) => 0
    case ModerateRetransmits(_) => 0
    case ConnectionFailures(_) => 1
    case FrequentResets(_) => 2
    case UdpReceiveErrors(_) => 3
    case InterfaceErrorsOn(_) => 4
  }

  /** An interface with any errors or drops. */
  predicate HasErrors(ie: InterfaceErrors)
  {
    ie.inErrorsPerSec > 0.0 || ie.outErrorsPerSec > 0.0 || ie.inDropsPerSec > 0.0
  }

  /** `error_ifaces`: the names of the interfaces with errors, in input order. */
  function ErrorInterfaces(ifaces: seq<InterfaceErrors>): seq<string>
  {
    if |ifaces| == 0 then []
    else (if HasErrors(ifaces[0]) then [ifaces[0].name] else []) + ErrorInterfaces(ifaces[1..])
  }

  /** A name is listed exactly when some interface with that name has errors. */
  lemma {:induction false} ErrorInterfacesMembers(ifaces: seq<InterfaceErrors>)
    ensures forall n :: n in ErrorInterfaces(ifaces) <==> exists ie :: ie in ifaces && HasErrors(ie) && ie.name == n
  {
    if |ifaces| > 0 {
      ErrorInterfacesMembers(ifaces[1..]);
      assert ifaces == [ifaces[0]] + ifaces[1..];
    }
  }

  /** The listing is empty exactly when no interface has errors. */
  lemma {:induction false} ErrorInterfacesEmpty(ifaces: seq<InterfaceErrors>)
    ensures |ErrorInterfaces(ifaces)| == 0 <==> forall ie | ie in ifaces :: !HasErrors(ie)
  {
    if |ifaces| > 0 {
      ErrorInterfacesEmpty(ifaces[1..]);
      assert forall ie | ie in ifaces[1..] :: ie in ifaces;
      assert forall ie | ie in ifaces :: ie == ifaces[0] || ie in ifaces[1..];
    }
  }

  /** The listing keeps the input order: it distributes over concatenation. */
  lemma {:induction false} ErrorInterfacesAppend(a: seq<InterfaceErrors>, b: seq<InterfaceErrors>)
    ensures ErrorInterfaces(a + b) == ErrorInterfaces(a) + ErrorInterfaces(b)
  {
    if |a| == 0 {
      assert a + b == b;
    } else {
      var ab := a + b;
      assert ab[0] == a[0] && ab[1..] == a[1..] + b;
      ErrorInterfacesAppend(a[1..], b);
      var head := if HasErrors(a[0]) then [a[0].name] else [];
      assert ErrorInterfaces(ab) == head + ErrorInterfaces(a[1..] + b);
      assert ErrorInterfaces(a) == head + ErrorInterfaces(a[1..]);
    }
  }

  /** The retransmission check: heavy above 100/s, otherwise moderate above 10/s. */
  function RetransmitIssues(tcp: TcpStats): seq<Issue>
  {
    if tcp.retransmitsPerSec > 100.0 then [HeavyRetransmits(tcp.retransmitsPerSec)]
    else if tcp.retransmitsPerSec > 10.0 then [ModerateRetransmits(tcp.retransmitsPerSec)]
    else []
  }

  /** The issues the assessment reports, check by check. */
  function Issues(tcp: TcpStats, udp: UdpStats, ifaces: seq<InterfaceErrors>): (r: seq<Issue>)
    ensures |r| == 0 <==>
              (tcp.retransmitsPerSec <= 10.0 && tcp.attemptFailsPerSec <= 10.0 && tcp.estabResetsPerSec <= 10.0
               && udp.inErrorsPerSec <= 10.0 && forall ie | ie in ifaces :: !HasErrors(ie))
  {
    ErrorInterfacesEmpty(ifaces);
    RetransmitIssues(tcp)
    + (if tcp.attemptFailsPerSec > 10.0 then [ConnectionFailures(tcp.attemptFailsPerSec)] else [])
    + (if tcp.estabResetsPerSec > 10.0 then [FrequentResets(tcp.estabResetsPerSec)] else [])
    + (if udp.inErrorsPerSec > 10.0 then [UdpReceiveErrors(udp.inErrorsPerSec)] else [])
    + (if |ErrorInterfaces(ifaces)| > 0 then [InterfaceErrorsOn(ErrorInterfaces(ifaces))] else [])
  }

  function IssueTexts(issues: seq<Issue>, fmt0: real -> string): (texts: seq<string>)
    ensures |texts| == |issues|
    ensures forall i | 0 <= i < |issues| :: texts[i] == IssueText(issues[i], fmt0)
  {
    if |issues| == 0 then [] else [IssueText(issues[0], fmt0)] + IssueTexts(issues[1..], fmt0)
  }

  const NormalText := "Network protocol health is normal"

  /** The assessment text of an issue list. */
  function Summary(issues: seq<Issue>, fmt0: real -> string): (r: string)
    ensures r == NormalText <==> |issues| == 0
  {
    if |issues| == 0 then NormalText
    else
      var s := "Issues detected: " + Join(IssueTexts(issues, fmt0), "; ");
      assert s[0] == 'I' && NormalText[0] == 'N';
      s
  }

  /** The checks report in fixed order, each at most once; in particular never both retransmission issues. */
  lemma IssuesOrdered(tcp: TcpStats, udp: UdpStats, ifaces: seq<InterfaceErrors>)
    ensures var issues := Issues(tcp, udp, ifaces);
      forall i, j | 0 <= i < j < |issues| :: Rank(issues[i]) < Rank(issues[j])
  {
  }

  /** The retransmission check reports heavy above 100/s and moderate between 10/s and 100/s. */
  lemma RetransmitThresholds(tcp: TcpStats, udp: UdpStats, ifaces: seq<InterfaceErrors>)
    ensures var issues := Issues(tcp, udp, ifaces);
      (|issues| > 0 && issues[0] == HeavyRetransmits(tcp.retransmitsPerSec) <==> tcp.retransmitsPerSec > 100.0)
      && (|issues| > 0 && issues[0] == ModerateRetransmits(tcp.retransmitsPerSec) <==> 10.0 < tcp.retransmitsPerSec <= 100.0)
  {
  }

  /** Connection failures, resets and UDP receive errors are each reported exactly when above 10/s. */
  lemma RateThresholds(tcp: TcpStats, udp: UdpStats, ifaces: seq<InterfaceErrors>)
    ensures var issues := Issues(tcp, udp, ifaces);
      && (ConnectionFailures(tcp.attemptFailsPerSec) in issues <==> tcp.attemptFailsPerSec > 10.0)
      && (FrequentResets(tcp.estabResetsPerSec) in issues <==> tcp.estabResetsPerSec > 10.0)
      && (UdpReceiveErrors(udp.inErrorsPerSec) in issues <==> udp.inErrorsPerSec > 10.0)
  {
    var issues := Issues(tcp, udp, ifaces);
    IssuesOrdered(tcp, udp, ifaces);
    forall i | 0 <= i < |issues| ensures
      && (issues[i] == ConnectionFailures(tcp.attemptFailsPerSec) ==> tcp.attemptFailsPerSec > 10.0)
      && (issues[i] == FrequentResets(tcp.estabResetsPerSec) ==> tcp.estabResetsPerSec > 10.0)
      && (issues[i] == UdpReceiveErrors(udp.inErrorsPerSec) ==> udp.inErrorsPerSec > 10.0)
    {
    }
  }

  /** One interface issue, naming the failing interfaces, exactly when some interface has errors. */
  lemma InterfaceIssue(tcp: TcpStats, udp: UdpStats, ifaces: seq<InterfaceErrors>)
    ensures var issues := Issues(tcp, udp, ifaces);
      (exists ie :: ie in ifaces && HasErrors(ie)) <==> |issues| > 0 && issues[|issues| - 1] == InterfaceErrorsOn(ErrorInterfaces(ifaces))
  {
    ErrorInterfacesMembers(ifaces);
    if exists ie :: ie in ifaces && HasErrors(ie) {
      var ie :| ie in ifaces && HasErrors(ie);
      assert ie.name in ErrorInterfaces(ifaces);
    } else if |ErrorInterfaces(ifaces)| > 0 {
      assert ErrorInterfaces(ifaces)[0] in ErrorInterfaces(ifaces);
    }
  }

  /** `_assess_network_stats(tcp, udp, iface_errors)`: the issues are appended check by check, then summarised. */
  method AssessNetworkStats(tcp: TcpStats, udp: UdpStats, ifaces: seq<InterfaceErrors>, fmt0: real -> string)
    returns (assessment: string)
    ensures assessment == Summary(Issues(tcp, udp, ifaces), fmt0)
  {
    var issues: seq<Issue> := [];
    if tcp.retransmitsPerSec > 100.0 {
      issues := issues + [HeavyRetransmits(tcp.retransmitsPerSec)];
    } else if tcp.retransmitsPerSec > 10.0 {
      issues := issues + [ModerateRetransmits(tcp.retransmitsPerSec)];
    }
    assert issues == RetransmitIssues(tcp);
    ghost var before := issues;
    if tcp.attemptFailsPerSec > 10.0 {
      issues := issues + [ConnectionFailures(tcp.attemptFailsPerSec)];
    }
    assert issues == before + (if tcp.attemptFailsPerSec > 10.0 then [ConnectionFailures(tcp.attemptFailsPerSec)] else []);
    before := issues;
    if tcp.estabResetsPerSec > 10.0 {
      issues := issues + [FrequentResets(tcp.estabResetsPerSec)];
    }
    assert issues == before + (if tcp.estabResetsPerSec > 10.0 then [FrequentResets(tcp.estabResetsPerSec)] else []);
    before := issues;
    if udp.inErrorsPerSec > 10.0 {
      issues := issues + [UdpReceiveErrors(udp.inErrorsPerSec)];
    }
    assert issues == before + (if udp.inErrorsPerSec > 10.0 then [UdpReceiveErrors(udp.inErrorsPerSec)] else []);
    before := issues;
    var errorIfaces := ErrorInterfaces(ifaces);
    if |errorIfaces| > 0 {
      issues := issues + [InterfaceErrorsOn(errorIfaces)];
    }
    assert issues == before + (if |errorIfaces| > 0 then [InterfaceErrorsOn(errorIfaces)] else []);
    assert issues == Issues(tcp, udp, ifaces);
    if |issues| == 0 {
      return NormalText;
    }
    return "Issues detected: " + Join(IssueTexts(issues, fmt0), "; ");
  }
}
