/** The print agent's handler for a message from the relay
    (backend/local-client/local-client.js:19-39): on any non-empty message,
    probe the printer, report the status back, and start both print jobs when
    the status says the printer is reachable. The sockets are not modelled:
    whether socket.send throws is an input, and what the handler hands to
    socket.send and which print jobs it starts are its outputs. */
module Agent {
  import opened JsText
  import opened Probe

  datatype PrintCall = PrintLongTextCall | PrintKitchenCall

  /** What one message makes the agent do: the probes it runs, the strings
      it hands to socket.send in order, and the print jobs it starts. */
  datatype Reaction = Reaction(trace: seq<Check>, sent: seq<string>, prints: seq<PrintCall>)

  const StatusPrefix := "Printer status: "
  const SendFailed := "Error checking printer status"

  /** The handler as a function of what the network would report. A send
      that throws skips the printing and lands in the catch block, which
      sends the error string. */
  function OnMessage(message: string, ping: PingOutcome, openPorts: set<nat>, snmp: SnmpOutcome, sendThrows: bool): (r: Reaction)
    ensures message == [] <==> r.sent == []
    ensures r.prints == [] || r.prints == [PrintLongTextCall, PrintKitchenCall]
    ensures r.prints != [] ==> |r.sent| == 1
  {
    if message == [] then Reaction([], [], [])
    else
      var r := Cascade(CommonPorts, ping, openPorts, snmp);
      var status := StatusText(r.verdict);
      if sendThrows then Reaction(r.trace, [StatusPrefix + status, SendFailed], [])
      else if Contains(status, "reachable") then Reaction(r.trace, [StatusPrefix + status], [PrintLongTextCall, PrintKitchenCall])
      else Reaction(r.trace, [StatusPrefix + status], [])
  }

  /** The handler step by step: the probe, the reply, the test on the
      status, the two print jobs. */
  method HandleMessage(message: string, ping: PingOutcome, openPorts: set<nat>, snmp: SnmpOutcome, sendThrows: bool)
    returns (trace: seq<Check>, sent: seq<string>, prints: seq<PrintCall>)
    ensures Reaction(trace, sent, prints) == OnMessage(message, ping, openPorts, snmp, sendThrows)
  {
    trace, sent, prints := [], [], [];
    if message != [] {
      var printerStatus;
      printerStatus, trace := CheckPrinterStatus(ping, openPorts, snmp);
      sent := [StatusPrefix + printerStatus];
      if sendThrows {
        sent := sent + [SendFailed];
        assert sent == [StatusPrefix + printerStatus, SendFailed];
        return;
      }
      if Contains(printerStatus, "reachable") {
        prints := [PrintLongTextCall, PrintKitchenCall];
      }
    }
  }

  /** An empty message does nothing at all. */
  lemma EmptyMessageIgnored(ping: PingOutcome, openPorts: set<nat>, snmp: SnmpOutcome, sendThrows: bool)
    ensures OnMessage([], ping, openPorts, snmp, sendThrows) == Reaction([], [], [])
  {
  }

  /** When the reply goes out, it is the status behind the fixed prefix, it is
      the only message, and both jobs start, long text first, exactly when
      the printer answered on a port, or answered but no port was open, or
      SNMP's own answer contains "reachable". */
  lemma PrintRule(message: string, ping: PingOutcome, openPorts: set<nat>, snmp: SnmpOutcome)
    requires message != []
    ensures var v := Cascade(CommonPorts, ping, openPorts, snmp).verdict;
            var re := OnMessage(message, ping, openPorts, snmp, false);
            re.sent == [StatusPrefix + StatusText(v)]
            && (re.prints == [PrintLongTextCall, PrintKitchenCall]
                <==> v.ReachableOnPort? || v.NoStandardPort? || (v.ViaSnmp? && Contains(v.value, "reachable")))
            && (re.prints == [] || re.prints == [PrintLongTextCall, PrintKitchenCall])
  {
    ReachableWording(Cascade(CommonPorts, ping, openPorts, snmp).verdict);
  }

  /** A printer that does not answer the ping, or whose probe threw, is
      reported and never printed to. */
  lemma DeadPrinterNeverPrints(message: string, ping: PingOutcome, openPorts: set<nat>, snmp: SnmpOutcome, sendThrows: bool)
    requires ping != Alive
    ensures OnMessage(message, ping, openPorts, snmp, sendThrows).prints == []
    ensures message != [] ==> OnMessage(message, ping, openPorts, snmp, sendThrows).trace == [PingCheck]
  {
    DeadPingStops(ping, openPorts, snmp);
    if ping == NoReply {
      NotRespondingWording();
    } else {
      CheckFailedWording();
    }
  }

  /** A throwing send never prints; the error string follows the attempted
      reply. */
  lemma SendFailureNeverPrints(message: string, ping: PingOutcome, openPorts: set<nat>, snmp: SnmpOutcome)
    requires message != []
    ensures OnMessage(message, ping, openPorts, snmp, true).prints == []
    ensures |OnMessage(message, ping, openPorts, snmp, true).sent| == 2
    ensures OnMessage(message, ping, openPorts, snmp, true).sent[1] == SendFailed
  {
  }

  /** Raw port 9100 open, IPP closed: the reply names 9100, LPD and SNMP are
      never tried, and both jobs start. */
  lemma PortScenario(message: string, snmp: SnmpOutcome)
    requires message != []
    ensures var re := OnMessage(message, Alive, {9100}, snmp, false);
            re.trace == [PingCheck, PortCheck(631), PortCheck(9100)]
            && re.sent == [StatusPrefix + StatusText(ReachableOnPort(9100))]
            && StatusText(ReachableOnPort(9100)) == "Printer is reachable on port 9100"
            && re.prints == [PrintLongTextCall, PrintKitchenCall]
  {
    FirstOpenPortWins({9100}, snmp, 1);
    assert CommonPorts[..2] == [631, 9100];
    assert PortChecks([631, 9100]) == [PortCheck(631), PortCheck(9100)];
    assert CommonPorts[1] == 9100;
    NineOneHundred();
    assert StatusText(ReachableOnPort(9100)) == "Printer is reachable on port " + "9100";
    PortWording(9100);
  }

  lemma NineOneHundred()
    ensures NatToString(9100) == "9100"
  {
    assert NatToString(9) == "9";
    assert NatToString(91) == "91";
    assert NatToString(910) == "910";
  }

  /** Every port closed and SNMP silent: the fallback text goes back and
      both jobs start after the full cascade. */
  lemma FallbackScenario(message: string)
    requires message != []
    ensures var re := OnMessage(message, Alive, {}, SnmpNull, false);
            re.trace == [PingCheck, PortCheck(631), PortCheck(9100), PortCheck(515), SnmpCheck]
            && re.sent == [StatusPrefix + StatusText(NoStandardPort)]
            && re.prints == [PrintLongTextCall, PrintKitchenCall]
  {
    SnmpOnlyWhenPortsClosed(Alive, {}, SnmpNull);
    FirstOpenIs(CommonPorts, {}, 3);
    FallbackWording();
  }
}
