/** checkPrinterStatus (backend/local-client/local-client.js:51-75): ping
    the printer, then try the usual printing ports in order, then ask SNMP,
    and describe the first thing that answered. The network is not modelled:
    what each probe would report is an input. */
module Probe {
  import opened JsText

  /** IPP, raw JetDirect, LPD: the order in which the ports are tried. */
  const CommonPorts: seq<nat> := [631, 9100, 515]

  /** What ping.promise.probe gives: an alive host, a silent one, or a
      rejected promise. */
  datatype PingOutcome = Alive | NoReply | PingFault

  /** What checkSNMP gives: the first varbind's value, null (session error,
      varbind error, no answer before the timer), or an exception thrown
      while opening the session. */
  datatype SnmpOutcome = SnmpValue(value: string) | SnmpNull | SnmpFault

  /** One probe the cascade attempted. */
  datatype Check = PingCheck | PortCheck(port: nat) | SnmpCheck

  datatype Verdict =
    | NotResponding
    | ReachableOnPort(port: nat)
    | ViaSnmp(value: string)
    | NoStandardPort
    | CheckFailed

  /** The verdict and the probes attempted to reach it, in order. */
  datatype ProbeResult = ProbeResult(verdict: Verdict, trace: seq<Check>)

  /** The string checkPrinterStatus resolves with. */
  function StatusText(v: Verdict): string
  {
    match v
    case NotResponding => "Printer is not responding to ping"
    case ReachableOnPort(p) => "Printer is reachable on port " + NatToString(p)
    case ViaSnmp(x) => "Printer status via SNMP: " + x
    // One string; written in two pieces so that FallbackWording can find
    // "reachable" in the first without comparing the whole literal.
    case NoStandardPort => "Printer is reachable" + " but no standard printing ports are open"
    case CheckFailed => "Error checking printer status"
  }

  /** A port text ends with the port's digits, an SNMP text with the value
      SNMP gave. */
  lemma StatusTextEnds(v: Verdict)
    ensures v.ReachableOnPort? ==> EndsWith(StatusText(v), NatToString(v.port))
    ensures v.ViaSnmp? ==> EndsWith(StatusText(v), v.value)
  {
  }

  /** The position of the first open port, or |ports| when all are closed. */
  function FirstOpen(ports: seq<nat>, openPorts: set<nat>): (k: nat)
    ensures k <= |ports|
    ensures forall i | 0 <= i < k :: ports[i] !in openPorts
    ensures k < |ports| ==> ports[k] in openPorts
  {
    if ports == [] then 0
    else if ports[0] in openPorts then 0
    else 1 + FirstOpen(ports[1..], openPorts)
  }

  function PortChecks(ports: seq<nat>): seq<Check>
  {
    seq(|ports|, i requires 0 <= i < |ports| => PortCheck(ports[i]))
  }

  function SnmpVerdict(snmp: SnmpOutcome): Verdict
  {
    match snmp
    case SnmpValue(x) => ViaSnmp(x)
    case SnmpNull => NoStandardPort
    case SnmpFault => CheckFailed
  }

  /** The whole cascade over the given ports: a ping that fails or throws
      ends it; otherwise the ports are tried up to the first open one; only
      when none is open is SNMP asked. */
  function Cascade(ports: seq<nat>, ping: PingOutcome, openPorts: set<nat>, snmp: SnmpOutcome): (r: ProbeResult)
    ensures |r.trace| >= 1 && r.trace[0] == PingCheck
    ensures |r.trace| <= |ports| + 2
    ensures r.verdict.ReachableOnPort? ==> r.verdict.port in openPorts && r.verdict.port in ports
  {
    match ping
    case PingFault => ProbeResult(CheckFailed, [PingCheck])
    case NoReply => ProbeResult(NotResponding, [PingCheck])
    case Alive =>
      var k := FirstOpen(ports, openPorts);
      if k < |ports| then ProbeResult(ReachableOnPort(ports[k]), [PingCheck] + PortChecks(ports[..k + 1]))
      else ProbeResult(SnmpVerdict(snmp), [PingCheck] + PortChecks(ports) + [SnmpCheck])
  }

  /** checkPrinterStatus, returning its status string and the probes it
      attempted. */
  method CheckPrinterStatus(ping: PingOutcome, openPorts: set<nat>, snmp: SnmpOutcome)
    returns (status: string, trace: seq<Check>)
    ensures status == StatusText(Cascade(CommonPorts, ping, openPorts, snmp).verdict)
    ensures trace == Cascade(CommonPorts, ping, openPorts, snmp).trace
  {
    trace := [PingCheck];
    if ping == PingFault {
      return StatusText(CheckFailed), trace;
    }
    if ping == NoReply {
      return StatusText(NotResponding), trace;
    }
    for i := 0 to |CommonPorts|
      invariant trace == [PingCheck] + PortChecks(CommonPorts[..i])
      invariant forall j | 0 <= j < i :: CommonPorts[j] !in openPorts
    {
      var port := CommonPorts[i];
      assert PortChecks(CommonPorts[..i + 1]) == PortChecks(CommonPorts[..i]) + [PortCheck(port)];
      trace := trace + [PortCheck(port)];
      if port in openPorts {
        FirstOpenIs(CommonPorts, openPorts, i);
        return StatusText(ReachableOnPort(port)), trace;
      }
    }
    FirstOpenIs(CommonPorts, openPorts, |CommonPorts|);
    assert CommonPorts[..|CommonPorts|] == CommonPorts;
    trace := trace + [SnmpCheck];
    match snmp
    case SnmpFault =>
      status := StatusText(CheckFailed);
    case SnmpValue(x) =>
      status := StatusText(ViaSnmp(x));
    case SnmpNull =>
      status := StatusText(NoStandardPort);
  }

  /** FirstOpen is the position the quantifiers describe. */
  lemma {:induction false} FirstOpenIs(ports: seq<nat>, openPorts: set<nat>, k: nat)
    requires k <= |ports|
    requires forall i | 0 <= i < k :: ports[i] !in openPorts
    requires k < |ports| ==> ports[k] in openPorts
    ensures FirstOpen(ports, openPorts) == k
  {
  }

  // ---------------------------------------------------------------------
  // The short-circuiting, stated over the port list the agent uses

  /** A ping that fails ends the cascade: no port, no SNMP. */
  lemma DeadPingStops(ping: PingOutcome, openPorts: set<nat>, snmp: SnmpOutcome)
    requires ping != Alive
    ensures Cascade(CommonPorts, ping, openPorts, snmp).trace == [PingCheck]
    ensures Cascade(CommonPorts, ping, openPorts, snmp).verdict
         == if ping == NoReply then NotResponding else CheckFailed
  {
  }

  /** The ports are tried as 631, 9100, 515, and the first open one is the
      answer: nothing is tried after it. */
  lemma FirstOpenPortWins(openPorts: set<nat>, snmp: SnmpOutcome, k: nat)
    requires k < |CommonPorts| && CommonPorts[k] in openPorts
    requires forall i | 0 <= i < k :: CommonPorts[i] !in openPorts
    ensures Cascade(CommonPorts, Alive, openPorts, snmp).verdict == ReachableOnPort(CommonPorts[k])
    ensures Cascade(CommonPorts, Alive, openPorts, snmp).trace
         == [PingCheck] + PortChecks(CommonPorts[..k + 1])
  {
    FirstOpenIs(CommonPorts, openPorts, k);
  }

  /** SNMP is asked exactly when the ping answered and every port is
      closed, and then it is the last probe. */
  lemma SnmpOnlyWhenPortsClosed(ping: PingOutcome, openPorts: set<nat>, snmp: SnmpOutcome)
    ensures var r := Cascade(CommonPorts, ping, openPorts, snmp);
            SnmpCheck in r.trace
            <==> ping == Alive && 631 !in openPorts && 9100 !in openPorts && 515 !in openPorts
    ensures var r := Cascade(CommonPorts, ping, openPorts, snmp);
            SnmpCheck in r.trace ==> r.trace == [PingCheck, PortCheck(631), PortCheck(9100), PortCheck(515), SnmpCheck]
  {
    var r := Cascade(CommonPorts, ping, openPorts, snmp);
    if ping == Alive {
      var k := FirstOpen(CommonPorts, openPorts);
      if k < |CommonPorts| {
        var checks := PortChecks(CommonPorts[..k + 1]);
        assert SnmpCheck !in checks;
        assert CommonPorts[k] in openPorts;
      } else {
        assert CommonPorts[0] == 631 && CommonPorts[1] == 9100 && CommonPorts[2] == 515;
        assert PortChecks(CommonPorts) == [PortCheck(631), PortCheck(9100), PortCheck(515)];
      }
    }
  }

  /** The cascade reports the error string exactly when a probe threw: the
      ping, or the SNMP session after every port was closed. */
  lemma ErrorOnlyOnFault(ping: PingOutcome, openPorts: set<nat>, snmp: SnmpOutcome)
    ensures Cascade(CommonPorts, ping, openPorts, snmp).verdict == CheckFailed
        <==> ping == PingFault
             || (ping == Alive && snmp == SnmpFault
                 && 631 !in openPorts && 9100 !in openPorts && 515 !in openPorts)
  {
    if ping == Alive {
      var k := FirstOpen(CommonPorts, openPorts);
      if k == |CommonPorts| {
        assert CommonPorts[0] == 631 && CommonPorts[1] == 9100 && CommonPorts[2] == 515;
      }
    }
  }

  /** The agent prints when the status contains "reachable": that is the
      port verdicts, the no-standard-port fallback, and an SNMP value that
      itself contains the word; never the ping failure or the error. */
  lemma ReachableWording(v: Verdict)
    ensures Contains(StatusText(v), "reachable")
        <==> v.ReachableOnPort? || v.NoStandardPort? || (v.ViaSnmp? && Contains(v.value, "reachable"))
  {
    match v
    case NotResponding => NotRespondingWording();
    case CheckFailed => CheckFailedWording();
    case ReachableOnPort(p) => PortWording(p);
    case NoStandardPort => FallbackWording();
    case ViaSnmp(x) => SnmpWording(x);
  }

  /** The failure texts have no 'b', so they cannot hold the word. */
  lemma NotRespondingWording()
    ensures !Contains(StatusText(NotResponding), "reachable")
  {
    ContainsNeedsChar("Printer is not responding to ping", "reachable", 'b');
  }

  lemma CheckFailedWording()
    ensures !Contains(StatusText(CheckFailed), "reachable")
  {
    ContainsNeedsChar("Error checking printer status", "reachable", 'b');
  }

  lemma PortWording(p: nat)
    ensures Contains(StatusText(ReachableOnPort(p)), "reachable")
  {
    ContainsInPrefix("Printer is reachable on port ", NatToString(p), "reachable", 11);
  }

  lemma FallbackWording()
    ensures Contains(StatusText(NoStandardPort), "reachable")
  {
    ContainsInPrefix("Printer is reachable", " but no standard printing ports are open", "reachable", 11);
  }

  /** The SNMP prefix neither holds the word nor lets it straddle into the
      value: it has no 'b' and ends with a blank. */
  lemma SnmpWording(x: string)
    ensures Contains(StatusText(ViaSnmp(x)), "reachable") <==> Contains(x, "reachable")
  {
    ContainsAfterPrefix("Printer status via SNMP: ", x, "reachable", 'b');
  }
}
