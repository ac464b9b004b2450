/**
 * Two nodes talking to each other through the engine's contracts alone:
 * what a caller of `UdpRpc` can conclude without looking at its bodies.
 */
module Scenarios {
  import opened Codec
  import opened Routing
  import opened Engine

  /** Fields short enough that the encoded message stays within 500 bytes. */
  lemma {:induction false} SmallMessage(fields: seq<string>)
    requires |fields| >= 1 && TotalLength(fields) + |fields| <= 120
    ensures ByteLength(Join(fields, Comma)) <= MaxPayload
  {
    JoinLength(fields, Comma);
  }

  lemma TwoFields(a: string, b: string)
    ensures TotalLength([a, b]) == |a| + |b|
  {
    assert [b][1..] == [];
    assert TotalLength([b]) == |b| + TotalLength([]);
    assert [a, b][1..] == [b];
  }

  lemma ThreeFields(a: string, b: string, c: string)
    ensures TotalLength([a, b, c]) == |a| + |b| + |c|
  {
    TwoFields(b, c);
    assert [a, b, c][1..] == [b, c];
  }

  /** A new node that exposes the one method `name`. */
  method NodeExposing(name: string) returns (node: UdpRpc)
    ensures fresh(node)
    ensures node.methods == {name} && node.messages == map[]
    ensures node.sent == [] && node.invoked == []
  {
    node := new UdpRpc();
    var err := node.DefineMethods([name]);
    assert err.None?;
    assert (set i | 0 <= i < |[name]| :: [name][i]) == {name} by {
      assert [name][0] == name;
    }
  }

  /**
   * Node A calls method `name` with the one argument `text` on node B at
   * `hostB:portB`; B's handler replies with its parameters. A's callback
   * receives exactly the one result `text`, once: the same reply delivered
   * again is ignored.
   */
  method EchoRoundTrip(name: string, id: string, text: string, hostA: string, portA: string,
                       hostB: string, portB: string, callback: CallbackRef)
    requires Comma !in name && Comma !in id && Comma !in text
    requires Colon !in hostB && Colon !in portB
    requires id != name
    requires |name| + |id| + |text| <= 100
  {
    var a := NodeExposing(name);
    var b := NodeExposing(name);

    // A issues the call; the random source draws `id`.
    ParseAddressRoundTrip(hostB, portB);
    assert [id][0] !in a.messages;
    ThreeFields(name, id, text);
    assert [name, id] + [text] == [name, id, text];
    SmallMessage([name, id, text]);
    var request := EncodeRequest(name, id, [text]);
    var outcome := a.ExecRpc(name, hostB + [Colon] + portB, [text], callback, [id], SendOk);
    assert outcome == Returned;
    assert a.messages == map[id := PendingCall(callback, name, hostB, Some(portB))];
    assert a.sent == [Datagram(request, hostB, Some(portB))];

    // B receives the request from A and runs its handler.
    var fromA := Peer(hostA, portA);
    assert Separable([name, id] + [text], Comma);
    RequestIsDispatched(b.messages, b.methods, name, id, [text], fromA);
    var route, _ := b.ReceiveRpc(request, fromA, ReturnsNormally);
    assert route == Request(name, [text], ReplyTo(id, hostA, portA));
    assert b.invoked == [HandlerInvoked(name, [text], route.reply)];
    assert b.messages == map[];

    // The handler calls its reply function with its parameters.
    var fatal := b.Reply(route.reply, route.params, SendOk);
    assert fatal == None;
    var answer := ReplyPayload(id, [text]);
    assert b.sent == [Datagram(answer, hostA, Some(portA))];

    // A receives the reply from B's port: the callback gets the one result.
    var fromB := Peer(hostB, portB);
    assert Separable([id] + [text], Comma);
    TwoFields(id, text);
    assert [id] + [text] == [id, text];
    SmallMessage([id, text]);
    ReplyPayloadIsResponse(a.messages, a.methods, id, [text], fromB);
    var response, _ := a.ReceiveRpc(answer, fromB, ReturnsNormally);
    assert response == Response(id, [text]);
    assert a.invoked == [CallbackInvoked(callback, Results([text]))];
    assert a.messages == map[];

    // The same reply again runs no callback and changes nothing.
    ReplyPayloadFields(id, [text]);
    var again, _ := a.ReceiveRpc(answer, fromB, ReturnsNormally);
    assert again == Ignored;
    assert a.invoked == [CallbackInvoked(callback, Results([text]))];
  }

  /**
   * A reply to a pending call arriving from another port than the one the
   * call was sent to runs no callback, and the call stays pending.
   */
  method ReplyFromWrongPort(name: string, id: string, result: string, host: string, port: string,
                            otherPort: string)
    requires Comma !in name && Comma !in id && Comma !in result
    requires Colon !in host && Colon !in port
    requires otherPort != port && |name| + |id| <= 100
  {
    var a := new UdpRpc();
    ParseAddressRoundTrip(host, port);
    assert [id][0] !in a.messages;
    TwoFields(name, id);
    assert [name, id] + [] == [name, id];
    SmallMessage([name, id]);
    var outcome := a.ExecRpc(name, host + [Colon] + port, [], 3, [id], SendOk);
    assert a.messages == map[id := PendingCall(3, name, host, Some(port))];

    var spoofer := Peer(host, otherPort);
    assert Separable([id] + [result], Comma);
    WrongPortNeverConsumes(a.messages, a.methods, id, [result], spoofer);
    var route, _ := a.ReceiveRpc(EncodeReply(id, [result]), spoofer, ReturnsNormally);
    assert route == Ignored;
    assert id in a.messages && a.invoked == [];
  }

  /**
   * A send error reaches the callback at once and leaves no pending call;
   * the collision with the pending id makes the id generator draw again.
   */
  method SendFailure(name: string, first: string, second: string, address: string, err: string)
    requires first != second
    requires |name| + |first| + |second| <= 100
  {
    var a := new UdpRpc();
    assert [first][0] !in a.messages;
    TwoFields(name, first);
    assert [name, first] + [] == [name, first];
    SmallMessage([name, first]);
    var peer := ParseAddress(address);
    var o1 := a.ExecRpc(name, address, [], 1, [first], SendOk);
    assert a.messages == map[first := PendingCall(1, name, peer.ip, peer.port)];

    var candidates := [first, second];
    assert candidates[1] !in a.messages;
    assert FreshIndex(candidates, a.messages, 0) == 1;
    TwoFields(name, second);
    assert [name, second] + [] == [name, second];
    SmallMessage([name, second]);
    var o2 := a.ExecRpc(name, address, [], 2, candidates, SendError(err));
    assert o2 == Returned;
    assert a.messages == map[first := PendingCall(1, name, peer.ip, peer.port)];
    assert a.invoked == [CallbackInvoked(2, Failed(err))];
    assert |a.sent| == 2 && a.sent[1].payload == EncodeRequest(name, second, []);
  }

  /**
   * A callback that throws leaves its call pending: the same reply delivered
   * again runs the callback a second time.
   */
  method ThrowingCallback(id: string, result: string, host: string, port: string, call: PendingCall)
    requires Comma !in id && Comma !in result && call.port == Some(port)
  {
    var a := new UdpRpc();
    a.messages := map[id := call];
    var from := Peer(host, port);
    assert Separable([id] + [result], Comma);
    ReplyIsResponse(a.messages, a.methods, id, [result], from);
    var r1, t1 := a.ReceiveRpc(EncodeReply(id, [result]), from, Throws("boom"));
    assert t1 == Some("boom") && a.messages == map[id := call];
    var r2, t2 := a.ReceiveRpc(EncodeReply(id, [result]), from, ReturnsNormally);
    assert r2 == Response(id, [result]) && t2 == None;
    assert a.invoked == [CallbackInvoked(call.callback, Results([result])), CallbackInvoked(call.callback, Results([result]))];
    assert a.messages == map[];
  }

  /** A request of more than 500 bytes throws before anything is sent or recorded. */
  method OversizedRequest(name: string, id: string, text: string, address: string)
    requires |text| > MaxPayload
  {
    var a := new UdpRpc();
    assert [id][0] !in a.messages;
    var fields := [name, id, text];
    JoinLength(fields, Comma);
    ThreeFields(name, id, text);
    assert [name, id] + [text] == fields;
    var outcome := a.ExecRpc(name, address, [text], 5, [id], SendOk);
    assert outcome == Threw(TooLarge);
    assert a.messages == map[] && a.sent == [] && a.invoked == [];
  }

  /** A request naming a method the node does not expose is dropped silently. */
  method UnknownMethod(exposed: string, name: string, id: string, params: seq<string>, from: Peer)
    requires name != exposed && Separable([name, id] + params, Comma)
  {
    var b := new UdpRpc();
    var err := b.DefineMethods([exposed]);
    RequestRoundTrip(name, id, params);
    OnlyResponsesConsume(b.messages, b.methods, EncodeRequest(name, id, params), from);
    var route, _ := b.ReceiveRpc(EncodeRequest(name, id, params), from, ReturnsNormally);
    assert route == Ignored;
    assert b.sent == [] && b.invoked == [] && b.messages == map[];
  }
}
