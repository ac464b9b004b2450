/**
 * The pure part of the engine's bookkeeping: the pending-call table's
 * entries, the choice of a fresh correlation id from a stream of random
 * candidates, and the classification of an inbound datagram as a response,
 * a request or noise, together with what that does to the table.
 */
module Routing {
  import opened Codec

  /** Stands for the caller's callback function; callbacks are foreign code. */
  type CallbackRef = nat

  /**
   * One entry of the pending-call table. The port is the text after the
   * colon of the address the call was sent to, undefined when there is none.
   */
  datatype PendingCall = PendingCall(callback: CallbackRef, name: string, ip: string, port: Option<string>)

  /** The source of a datagram, as the socket reports it. */
  datatype Peer = Peer(address: string, port: string)

  /** Where the reply function of a request sends, and the id it echoes. */
  datatype ReplyTo = ReplyTo(messageId: string, address: string, port: string)

  /** How an inbound datagram is handled. */
  datatype Route =
    | Response(id: string, results: seq<string>)
    | Request(name: string, params: seq<string>, reply: ReplyTo)
    | Ignored

  // ---------------------------------------------------------------------
  // Correlation ids
  // ---------------------------------------------------------------------

  ghost predicate HasFresh(candidates: seq<string>, pending: map<string, PendingCall>, from: nat)
  {
    exists k :: from <= k < |candidates| && candidates[k] !in pending
  }

  /** The position of the first candidate at or after `from` that is not a pending id. */
  function FreshIndex(candidates: seq<string>, pending: map<string, PendingCall>, from: nat): (k: nat)
    requires HasFresh(candidates, pending, from)
    ensures from <= k < |candidates| && candidates[k] !in pending
    ensures forall j :: from <= j < k ==> candidates[j] in pending
    decreases |candidates| - from
  {
    if candidates[from] !in pending then from
    else
      assert HasFresh(candidates, pending, from + 1) by {
        var k :| from <= k < |candidates| && candidates[k] !in pending;
        assert k != from;
      }
      FreshIndex(candidates, pending, from + 1)
  }

  // ---------------------------------------------------------------------
  // Inbound datagrams
  // ---------------------------------------------------------------------

  /**
   * The routing of `message` from `from`: a response when its first field is
   * a pending id whose recorded port is the sender's port; otherwise a
   * request when the first field is a registered method name (the id is the
   * second field, rendered as "" by `join` when it is missing, and the
   * parameters are the fields after it); otherwise nothing.
   */
  function Classify(pending: map<string, PendingCall>, methods: set<string>, message: string, from: Peer): (r: Route)
    ensures r.Response? ==> r.id in pending && pending[r.id].port == Some(from.port) && Comma !in r.id
    ensures r.Response? ==> forall k :: 0 <= k < |r.results| ==> Comma !in r.results[k]
    ensures r.Request? ==> r.name in methods && Comma !in r.name && Comma !in r.reply.messageId
    ensures r.Request? ==> r.reply.address == from.address && r.reply.port == from.port
    ensures r.Request? ==> forall k :: 0 <= k < |r.params| ==> Comma !in r.params[k]
  {
    var fields := Split(message, Comma);
    if fields[0] in pending && pending[fields[0]].port == Some(from.port) then
      Response(fields[0], fields[1..])
    else if fields[0] in methods then
      Request(fields[0], if |fields| > 2 then fields[2..] else [],
              ReplyTo(if |fields| > 1 then fields[1] else "", from.address, from.port))
    else
      Ignored
  }

  /** The pending table after a datagram was routed: a response consumes its entry. */
  function Consume(pending: map<string, PendingCall>, route: Route): (r: map<string, PendingCall>)
    ensures r.Keys <= pending.Keys && forall id :: id in r ==> r[id] == pending[id]
    ensures route.Response? ==> route.id !in r
    ensures |pending.Keys - r.Keys| <= 1
  {
    if route.Response? then pending - {route.id} else pending
  }

  /**
   * A reply to a pending call, arriving from the port the call was sent to,
   * is delivered to that call with its results in order, and the call is
   * removed, all other calls staying as they were.
   */
  lemma ReplyIsResponse(pending: map<string, PendingCall>, methods: set<string>, id: string,
                        results: seq<string>, from: Peer)
    requires id in pending && pending[id].port == Some(from.port)
    requires Separable([id] + results, Comma)
    ensures Classify(pending, methods, EncodeReply(id, results), from) == Response(id, results)
    ensures var rest := Consume(pending, Response(id, results));
            id !in rest && forall other :: other != id && other in pending ==> other in rest && rest[other] == pending[other]
  {
    ReplyRoundTrip(id, results);
  }

  /**
   * What the reply function sends is delivered as a response carrying the
   * results, or the single result "Payload too large" when they did not fit.
   */
  lemma ReplyPayloadIsResponse(pending: map<string, PendingCall>, methods: set<string>, id: string,
                               results: seq<string>, from: Peer)
    requires id in pending && pending[id].port == Some(from.port)
    requires Separable([id] + results, Comma)
    ensures Classify(pending, methods, ReplyPayload(id, results), from)
         == Response(id, if ByteLength(EncodeReply(id, results)) > MaxPayload then [TooLarge] else results)
  {
    ReplyPayloadFields(id, results);
  }

  /**
   * A request for a registered method, whose name is not also a pending id
   * awaited from the sender's port, reaches that method with its parameters
   * in order and a reply addressed to the sender, echoing the request's id.
   */
  lemma RequestIsDispatched(pending: map<string, PendingCall>, methods: set<string>, name: string,
                            id: string, params: seq<string>, from: Peer)
    requires name in methods
    requires !(name in pending && pending[name].port == Some(from.port))
    requires Separable([name, id] + params, Comma)
    ensures Classify(pending, methods, EncodeRequest(name, id, params), from)
         == Request(name, params, ReplyTo(id, from.address, from.port))
  {
    RequestRoundTrip(name, id, params);
  }

  /**
   * The response test comes first: a request whose method name happens to
   * be a pending id awaited from the sender's port is taken for a response
   * and consumes that call instead of reaching the method.
   */
  lemma ResponseCheckedFirst(pending: map<string, PendingCall>, methods: set<string>, name: string,
                             id: string, params: seq<string>, from: Peer)
    requires name in methods
    requires name in pending && pending[name].port == Some(from.port)
    requires Separable([name, id] + params, Comma)
    ensures Classify(pending, methods, EncodeRequest(name, id, params), from) == Response(name, [id] + params)
    ensures name !in Consume(pending, Classify(pending, methods, EncodeRequest(name, id, params), from))
  {
    RequestRoundTrip(name, id, params);
    var fields := Split(EncodeRequest(name, id, params), Comma);
    assert fields[1..] == [fields[1]] + fields[2..];
  }

  /**
   * A pending id arriving from any other port never consumes its call: the
   * datagram goes on to the method lookup, and the table is left unchanged.
   */
  lemma WrongPortNeverConsumes(pending: map<string, PendingCall>, methods: set<string>, id: string,
                               results: seq<string>, from: Peer)
    requires id in pending && pending[id].port != Some(from.port)
    requires Separable([id] + results, Comma)
    ensures var route := Classify(pending, methods, EncodeReply(id, results), from);
            !route.Response? && (route.Request? <==> id in methods) && Consume(pending, route) == pending
  {
    ReplyRoundTrip(id, results);
  }

  /**
   * A response is delivered once: routed again against the table it left
   * behind, the same datagram is no response at all, so no callback runs.
   */
  lemma ResponseConsumedOnce(pending: map<string, PendingCall>, methods: set<string>,
                             message: string, from: Peer)
    requires Classify(pending, methods, message, from).Response?
    ensures var route := Classify(pending, methods, message, from);
            !Classify(Consume(pending, route), methods, message, from).Response?
            && Consume(pending, route) == pending - {route.id}
            && |Consume(pending, route)| == |pending| - 1
  {
  }

  /**
   * Anything that is not a response leaves the pending table as it was:
   * requests and noise never touch it.
   */
  lemma OnlyResponsesConsume(pending: map<string, PendingCall>, methods: set<string>,
                             message: string, from: Peer)
    ensures var route := Classify(pending, methods, message, from);
            Consume(pending, route) != pending <==> route.Response?
    ensures var route := Classify(pending, methods, message, from);
            route.Ignored? <==> Split(message, Comma)[0] !in methods
                                && !(Split(message, Comma)[0] in pending
                                     && pending[Split(message, Comma)[0]].port == Some(from.port))
  {
  }
}
