/**
 * The RPC node: its table of exposed method names and its table of pending
 * outbound calls, updated in place by issuing calls, receiving datagrams and
 * replying. The socket is not modelled: every send is appended to the ghost
 * log `sent`, and whether it failed is a parameter. Callbacks and method
 * handlers are foreign code: every invocation is appended to the ghost log
 * `invoked`, and a handler answers by calling `Reply`.
 */
module Engine {
  import opened Codec
  import opened Routing

  /** One call of the socket's `send`. */
  datatype Datagram = Datagram(payload: string, host: string, port: Option<string>)

  /** What the socket reports for a send. */
  datatype SendResult = SendOk | SendError(err: string)

  /** The arguments a callback is called with. */
  datatype CallOutcome = Failed(err: string) | Results(values: seq<string>)

  /** One call into foreign code. */
  datatype Invocation =
    | CallbackInvoked(callback: CallbackRef, outcome: CallOutcome)
    | HandlerInvoked(name: string, params: seq<string>, reply: ReplyTo)

  /** How an outbound call returns to its caller: normally, or by a thrown error. */
  datatype ExecOutcome = Returned | Threw(error: string)

  /** How a callback or a handler, foreign code, returns: normally, or by throwing. */
  datatype ForeignOutcome = ReturnsNormally | Throws(err: string)

  /** The message of the TypeError that redefining a non-configurable property throws. */
  function RedefineError(name: string): string
  {
    "Cannot redefine property: " + name
  }

  class UdpRpc {
    /** The names of the methods this node exposes (and has call stubs for). */
    var methods: set<string>
    /** The calls sent and not yet answered, by correlation id. */
    var messages: map<string, PendingCall>
    /** Every datagram handed to the socket, in order. */
    ghost var sent: seq<Datagram>
    /** Every call into a callback or a method handler, in order. */
    ghost var invoked: seq<Invocation>

    /** A node with no methods and no pending calls. */
    constructor ()
      ensures methods == {} && messages == map[]
      ensures sent == [] && invoked == []
    {
      methods := {};
      messages := map[];
      sent := [];
      invoked := [];
    }

    /**
     * Exposes each name in turn. A name exposed before cannot be defined
     * again: the first such name ends the loop with a TypeError, the names
     * before it staying exposed.
     */
    method DefineMethods(names: seq<string>) returns (error: Option<string>)
      modifies this`methods
      ensures error.None? ==>
                (forall i :: 0 <= i < |names| ==>
                   names[i] !in old(methods) && (forall j :: 0 <= j < i ==> names[j] != names[i]))
                && methods == old(methods) + set i | 0 <= i < |names| :: names[i]
      ensures error.Some? ==>
                exists k :: 0 <= k < |names|
                  && (names[k] in old(methods) || exists j :: 0 <= j < k && names[j] == names[k])
                  && (forall i :: 0 <= i < k ==>
                        names[i] !in old(methods) && (forall j :: 0 <= j < i ==> names[j] != names[i]))
                  && error == Some(RedefineError(names[k]))
                  && methods == old(methods) + set i | 0 <= i < k :: names[i]
    {
      var i := 0;
      while i < |names|
        invariant 0 <= i <= |names|
        invariant methods == old(methods) + set j | 0 <= j < i :: names[j]
        invariant forall k :: 0 <= k < i ==>
                    names[k] !in old(methods) && (forall j :: 0 <= j < k ==> names[j] != names[k])
      {
        if names[i] in methods {
          error := Some(RedefineError(names[i]));
          return;
        }
        methods := methods + {names[i]};
        i := i + 1;
      }
      error := None;
    }

    /**
     * Draws candidates in order until one is not a pending id; the random
     * source is the sequence `candidates`, which must hold a fresh id.
     */
    method GenId(candidates: seq<string>) returns (id: string)
      requires HasFresh(candidates, messages, 0)
      ensures id !in messages
      ensures id == candidates[FreshIndex(candidates, messages, 0)]
    {
      var i := 0;
      id := candidates[0];
      while id in messages
        invariant 0 <= i < |candidates| && id == candidates[i]
        invariant forall j :: 0 <= j < i ==> candidates[j] in messages
        decreases |candidates| - i
      {
        i := i + 1;
        id := candidates[i];
      }
    }

    /**
     * Issues a call of `name` on the peer at `address` (`host:port`).
     * An encoded request over 500 bytes throws before anything is sent.
     * Otherwise the request is sent; a send error goes to the callback and
     * nothing is recorded, and a successful send records exactly one new
     * pending call under the fresh id.
     */
    method ExecRpc(name: string, address: string, params: seq<string>, callback: CallbackRef,
                   candidates: seq<string>, sendResult: SendResult) returns (outcome: ExecOutcome)
      requires HasFresh(candidates, messages, 0)
      modifies this`messages, this`sent, this`invoked
      ensures var id := candidates[FreshIndex(candidates, old(messages), 0)];
              var payload := EncodeRequest(name, id, params);
              ByteLength(payload) > MaxPayload ==>
                outcome == Threw(TooLarge)
                && messages == old(messages) && sent == old(sent) && invoked == old(invoked)
      ensures var id := candidates[FreshIndex(candidates, old(messages), 0)];
              var payload := EncodeRequest(name, id, params);
              var peer := ParseAddress(address);
              ByteLength(payload) <= MaxPayload ==>
                outcome == Returned
                && sent == old(sent) + [Datagram(payload, peer.ip, peer.port)]
                && (sendResult.SendError? ==>
                      messages == old(messages)
                      && invoked == old(invoked) + [CallbackInvoked(callback, Failed(sendResult.err))])
                && (sendResult.SendOk? ==>
                      id !in old(messages)
                      && messages == old(messages)[id := PendingCall(callback, name, peer.ip, peer.port)]
                      && invoked == old(invoked))
    {
      var peer := ParseAddress(address);
      var id := GenId(candidates);
      var payload := EncodeRequest(name, id, params);
      if ByteLength(payload) > MaxPayload {
        return Threw(TooLarge);
      }
      sent := sent + [Datagram(payload, peer.ip, peer.port)];
      match sendResult {
        case SendError(err) =>
          invoked := invoked + [CallbackInvoked(callback, Failed(err))];
        case SendOk =>
          messages := messages[id := PendingCall(callback, name, peer.ip, peer.port)];
      }
      outcome := Returned;
    }

    /**
     * Handles one inbound datagram as `Classify` routes it: a response runs
     * its call's callback with the remaining fields and then removes the
     * call; a request runs the method's handler with its parameters and a
     * reply addressed to the sender; anything else is dropped. Nothing is
     * sent. `foreign` says how the callback or handler returns: an error it
     * throws propagates out of this method, and a callback that throws
     * leaves its call pending, because the removal comes after it.
     */
    method ReceiveRpc(message: string, from: Peer, foreign: ForeignOutcome) returns (route: Route, thrown: Option<string>)
      modifies this`messages, this`invoked
      ensures route == Classify(old(messages), methods, message, from)
      ensures messages == if foreign.Throws? then old(messages) else Consume(old(messages), route)
      ensures thrown == if !route.Ignored? && foreign.Throws? then Some(foreign.err) else None
      ensures route.Response? ==>
                invoked == old(invoked) + [CallbackInvoked(old(messages)[route.id].callback, Results(route.results))]
      ensures route.Request? ==>
                invoked == old(invoked) + [HandlerInvoked(route.name, route.params, route.reply)]
      ensures route.Ignored? ==> invoked == old(invoked)
    {
      thrown := None;
      var fields := Split(message, Comma);
      if fields[0] in messages && messages[fields[0]].port == Some(from.port) {
        var call := messages[fields[0]];
        route := Response(fields[0], fields[1..]);
        invoked := invoked + [CallbackInvoked(call.callback, Results(fields[1..]))];
        if foreign.Throws? {
          thrown := Some(foreign.err);
          return;
        }
        messages := messages - {fields[0]};
      } else if fields[0] in methods {
        var messageId := if |fields| > 1 then fields[1] else "";
        var params := if |fields| > 2 then fields[2..] else [];
        var reply := ReplyTo(messageId, from.address, from.port);
        invoked := invoked + [HandlerInvoked(fields[0], params, reply)];
        route := Request(fields[0], params, reply);
        if foreign.Throws? {
          thrown := Some(foreign.err);
        }
      } else {
        route := Ignored;
      }
    }

    /**
     * The reply function a handler receives: sends the id and the results to
     * the requester, or the id and "Payload too large" when that is over
     * 500 bytes. A send error is fatal to the node and is returned.
     */
    method Reply(to: ReplyTo, results: seq<string>, sendResult: SendResult) returns (fatal: Option<string>)
      modifies this`sent
      ensures sent == old(sent) + [Datagram(ReplyPayload(to.messageId, results), to.address, Some(to.port))]
      ensures fatal == if sendResult.SendError? then Some(sendResult.err) else None
    {
      var payload := EncodeReply(to.messageId, results);
      if ByteLength(payload) > MaxPayload {
        payload := EncodeReply(to.messageId, [TooLarge]);
      }
      sent := sent + [Datagram(payload, to.address, Some(to.port))];
      fatal := if sendResult.SendError? then Some(sendResult.err) else None;
    }
  }
}
