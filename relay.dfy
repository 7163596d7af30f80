/** The relay's message rule (backend/server.js:54-80): a message that
    arrives on one WebSocket connection is sent on, unchanged, to every
    other connection that is open. The origin check splits the rule into two
    branches that forward in the same way. */
module Relay {
  /** The ws library's readyState values. */
  datatype ReadyState = Connecting | Open | Closing | Closed

  /** One entry of wss.clients: the connection's identity and its state. */
  datatype Client = Client(id: nat, state: ReadyState)

  /** One client.send call: to whom, and what. */
  datatype Delivery = Delivery(to: nat, payload: string)

  /** The Origin header of the request that opened the sender's connection. */
  datatype Origin = NoOrigin | OriginHeader(value: string)

  const FrontendOrigin := "https://g-pos.vercel.app"

  predicate IsFromReactApp(origin: Origin)
  {
    origin == OriginHeader(FrontendOrigin)
  }

  /** The clients the forEach sends to, in iteration order: every open one
      that is not the sender. */
  function Recipients(sender: nat, clients: seq<Client>): (r: seq<Client>)
    ensures |r| <= |clients|
    ensures forall c :: c in r <==> c in clients && c.id != sender && c.state == Open
  {
    if clients == [] then []
    else
      var last := clients[|clients| - 1];
      assert clients == clients[..|clients| - 1] + [last];
      Recipients(sender, clients[..|clients| - 1])
      + (if last.id != sender && last.state == Open then [last] else [])
  }

  predicate DistinctIds(clients: seq<Client>)
  {
    forall i, j | 0 <= i < j < |clients| :: clients[i].id != clients[j].id
  }

  /** One send per recipient, in order, each carrying the message as it
      arrived. */
  function Deliveries(recipients: seq<Client>, messageStr: string): (d: seq<Delivery>)
    ensures |d| == |recipients|
    ensures forall i | 0 <= i < |d| :: d[i].to == recipients[i].id && d[i].payload == messageStr
  {
    seq(|recipients|, i requires 0 <= i < |recipients| => Delivery(recipients[i].id, messageStr))
  }

  /** The connection handler's message callback: both branches of the
      origin check run the same forEach, so whatever the origin the sends
      are one per recipient, in order, each with the received string. */
  method OnRelayMessage(sender: nat, origin: Origin, clients: seq<Client>, messageStr: string)
    returns (outbox: seq<Delivery>)
    ensures outbox == Deliveries(Recipients(sender, clients), messageStr)
  {
    outbox := [];
    if IsFromReactApp(origin) {
      outbox := Forward(sender, clients, messageStr, outbox);
    }
    if !IsFromReactApp(origin) {
      outbox := Forward(sender, clients, messageStr, outbox);
    }
  }

  /** One wss.clients.forEach: send to each other open client, in order,
      after whatever was sent before. */
  method Forward(sender: nat, clients: seq<Client>, messageStr: string, sentBefore: seq<Delivery>)
    returns (outbox: seq<Delivery>)
    ensures outbox == sentBefore + Deliveries(Recipients(sender, clients), messageStr)
  {
    outbox := sentBefore;
    for n := 0 to |clients|
      invariant outbox == sentBefore + Deliveries(Recipients(sender, clients[..n]), messageStr)
    {
      var client := clients[n];
      RecipientsGrow(sender, clients, n);
      DeliveriesGrow(sentBefore, Recipients(sender, clients[..n]), client, messageStr);
      if client.id != sender && client.state == Open {
        outbox := outbox + [Delivery(client.id, messageStr)];
      } else {
        assert Recipients(sender, clients[..n]) + [] == Recipients(sender, clients[..n]);
      }
    }
    assert clients[..|clients|] == clients;
  }

  lemma DeliveriesGrow(sentBefore: seq<Delivery>, r: seq<Client>, c: Client, messageStr: string)
    ensures sentBefore + Deliveries(r + [c], messageStr)
         == sentBefore + Deliveries(r, messageStr) + [Delivery(c.id, messageStr)]
  {
  }

  lemma RecipientsGrow(sender: nat, clients: seq<Client>, n: nat)
    requires n < |clients|
    ensures Recipients(sender, clients[..n + 1])
         == Recipients(sender, clients[..n])
            + (if clients[n].id != sender && clients[n].state == Open then [clients[n]] else [])
  {
    assert clients[..n + 1][..n] == clients[..n];
  }

  /** With distinct connection identities, nobody receives a message twice:
      every other open client gets it exactly once. */
  lemma {:induction false} RecipientsDistinct(sender: nat, clients: seq<Client>)
    requires DistinctIds(clients)
    ensures DistinctIds(Recipients(sender, clients))
  {
    if clients != [] {
      var init, last := clients[..|clients| - 1], clients[|clients| - 1];
      assert DistinctIds(init) by {
        forall i, j | 0 <= i < j < |init|
          ensures init[i].id != init[j].id
        {
          assert init[i] == clients[i] && init[j] == clients[j];
        }
      }
      RecipientsDistinct(sender, init);
      var r := Recipients(sender, init);
      forall c | c in r
        ensures c.id != last.id
      {
        var k :| 0 <= k < |init| && init[k] == c;
        assert clients[k] == c;
      }
    }
  }

  /** The sender never hears its own message, and a connection that is not
      open hears nothing, whatever the origin. */
  lemma NoEcho(sender: nat, clients: seq<Client>, i: nat)
    requires i < |Recipients(sender, clients)|
    ensures Recipients(sender, clients)[i].id != sender
    ensures Recipients(sender, clients)[i].state == Open
  {
    assert Recipients(sender, clients)[i] in Recipients(sender, clients);
  }

  /** The browser's message and the agent's reply travel the same way: one
      open browser and one open agent each reach only the other. */
  lemma PairScenario(message: string)
    ensures Recipients(1, [Client(1, Open), Client(2, Open)]) == [Client(2, Open)]
    ensures Recipients(2, [Client(1, Open), Client(2, Open)]) == [Client(1, Open)]
    ensures Recipients(1, [Client(1, Open), Client(2, Closed)]) == []
  {
    assert [Client(1, Open), Client(2, Open)][..1] == [Client(1, Open)];
    assert [Client(1, Open), Client(2, Closed)][..1] == [Client(1, Open)];
  }
}
