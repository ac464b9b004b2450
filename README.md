# udp-rpc: the RPC correlation and dispatch engine, in Dafny

This project models the engine of `lib/udp-rpc.js`, a remote-procedure-call
library over UDP datagrams. A node exposes a set of named methods and can call
the same-named methods on a peer at `host:port`. It has three parts:

- **The message codec.** A request is `method,id,params…` and a reply is
  `id,results…`. Both are joined with commas, with no escaping. An inbound
  datagram is split on commas. A request whose UTF-8 encoding exceeds
  500 bytes is refused with the error "Payload too large". A reply that
  exceeds 500 bytes is replaced by `id,Payload too large`.
- **The pending-call table** (`messages`), keyed by correlation id. `genId`
  draws random candidates until one is not already a key. An entry is added
  only after the request was sent successfully. The entry records the callback,
  the method name, and the ip and port from splitting the address on `:`.
- **Inbound routing.** A datagram is a response when its first field is a
  pending id and its source port equals the recorded port. In that case the
  callback gets the remaining fields and the entry is deleted. Otherwise it is
  a request when its first field is an exposed method name. In that case the
  handler gets the fields from the third on, plus a reply function bound to
  the sender's address and port. Anything else is dropped.

Files:

- `codec.dfy` (module `Codec`): split and join with their round trips, the
  UTF-8 byte length, request and reply encodings, the reply substitution, and
  address parsing.
- `routing.dfy` (module `Routing`): the table entries, the fresh-id
  specification `FreshIndex`, and the pure routing function `Classify`. It
  also holds `Consume`, the table after routing, and the routing lemmas.
- `engine.dfy` (module `Engine`): the class `UdpRpc`. Its fields are
  `methods: set<string>`, `messages: map<string, PendingCall>` and two ghost
  logs. `sent` logs every call of the socket's `send`. `invoked` logs every
  call into a callback or a handler. Each method states the whole new state
  in terms of the old one and of `Classify`, `FreshIndex` and the encoders.
- `scenarios.dfy` (module `Scenarios`): clients that use only the contracts.
  They cover an echo call and its reply between two nodes, a duplicate reply,
  a reply from the wrong port, a callback that throws, a send failure with an
  id collision, an oversized request and an unknown method.

Foreign inputs become parameters:

- The outcome of each `send` is a `SendResult` argument.
- The random source of `genId` is a sequence of candidate ids.
- Callbacks are opaque `CallbackRef` numbers.
- Whether the callback or handler that a datagram runs returns normally or
  throws is a `ForeignOutcome` argument of `ReceiveRpc`.
- Handlers are the method names. Their invocation is logged, and the reply
  function they receive is the method `UdpRpc.Reply`.

Calls are sequential: a pending entry is registered as soon as the send
succeeds.

## Model

| member | source | states |
|---|---|---|
| `Codec.ByteLength` | lib/udp-rpc.js:10-12 | the byte length of a payload is between its character count and four times it, and equals the character count exactly when the text is ASCII |
| `Codec.ByteLengthAppend` | lib/udp-rpc.js:47-50 | the byte length of a concatenation is the sum of the byte lengths |
| `Codec.Join` | lib/udp-rpc.js:10 | `Array.prototype.join` on strings (one separator between adjacent fields, `""` for no fields); a join of at least one field starts with the first field |
| `Codec.EncodeRequest` | lib/udp-rpc.js:10 | a request payload starts with the method name and a comma |
| `Codec.EncodeReply` | lib/udp-rpc.js:47 | a reply with no results is the bare id; otherwise it starts with the id and a comma |
| `Codec.ReplyPayload` | lib/udp-rpc.js:47-51 | what the reply function sends starts with the id, and is within 500 bytes unless it is the substitute `id,Payload too large` |
| `Codec.ParseAddress` | lib/udp-rpc.js:8 | `address.split(":")`: the ip is a colon-free prefix of the address; a defined port holds no colon and follows a colon right after the ip |
| `Codec.Split` | lib/udp-rpc.js:32 | splitting on a separator always yields at least one field, and no field contains the separator |
| `Codec.SplitJoin` | lib/udp-rpc.js:10 | splitting what was joined gives back the same fields in order, when there is at least one field and none contains the separator |
| `Codec.JoinSplit` | lib/udp-rpc.js:32 | joining the fields of any split with the same separator gives back the original text |
| `Codec.JoinLength` | lib/udp-rpc.js:10 | a joined message is as long as its fields plus one separator between each adjacent pair |
| `Codec.RequestRoundTrip` | lib/udp-rpc.js:10 | a split request has the method at field 0, the id at field 1 and the params in order from field 2, when no field contains a comma |
| `Codec.ReplyRoundTrip` | lib/udp-rpc.js:47 | a split reply has the id at field 0 and the results in order from field 1, when no field contains a comma |
| `Codec.ReplyPayloadFields` | lib/udp-rpc.js:47-51 | what the reply function sends splits into the id followed by the results, or by the single field "Payload too large" when the encoded reply exceeds 500 bytes |
| `Codec.ReplyPayloadBound` | lib/udp-rpc.js:49-51 | a reply never exceeds 500 bytes when the id is at most 482 bytes (the substitute is not size-checked again) |
| `Codec.ParseAddressRoundTrip` | lib/udp-rpc.js:8 | `host:port` parses to that ip and that port when neither contains a colon |
| `Codec.ParseAddressNoPort` | lib/udp-rpc.js:8 | the port is undefined exactly when the address has no colon; an address with no colon is the ip as a whole |
| `Routing.FreshIndex` | lib/udp-rpc.js:80-90 | the chosen candidate is not a pending id, and every candidate drawn before it was a pending id |
| `Routing.Classify` | lib/udp-rpc.js:32-46 | a response names a pending id whose recorded port is the sender's, and carries comma-free results; a request names an exposed method, carries comma-free params, and replies to the sender's address and port with a comma-free id |
| `Routing.Consume` | lib/udp-rpc.js:39 | routing only ever removes entries, at most one, keeping every other entry unchanged; after a response its id is no longer pending |
| `Routing.ReplyIsResponse` | lib/udp-rpc.js:34-39 | a reply to a pending id from the recorded port routes as a response with the results in order; consuming it removes that id and keeps every other entry |
| `Routing.ReplyPayloadIsResponse` | lib/udp-rpc.js:46-53 | what a reply function sends reaches the waiting caller as a response carrying the results, or the substitute result when they did not fit |
| `Routing.RequestIsDispatched` | lib/udp-rpc.js:40-46 | a request for an exposed method (not also a pending id from the sender's port) routes to that method with its params in order and a reply to the sender's address and port echoing the id |
| `Routing.ResponseCheckedFirst` | lib/udp-rpc.js:34-40 | the response test comes first: a request whose method name is a pending id awaited from the sender's port is taken as a response and consumes that entry |
| `Routing.WrongPortNeverConsumes` | lib/udp-rpc.js:34-40 | a pending id arriving from another port is not a response; it is a request exactly when the id is an exposed method name, and the table is unchanged |
| `Routing.ResponseConsumedOnce` | lib/udp-rpc.js:38-39 | after a response consumed its entry, the same datagram is no longer a response, and the table has lost exactly that one entry |
| `Routing.OnlyResponsesConsume` | lib/udp-rpc.js:40-60 | the table changes exactly when the datagram is a response; a datagram is ignored exactly when its first field is neither an exposed name nor a pending id from the sender's port |
| `Engine.UdpRpc.constructor` | lib/udp-rpc.js:78-79 | a new node has no exposed methods, no pending calls and empty logs |
| `Engine.UdpRpc.DefineMethods` | lib/udp-rpc.js:91-104 | all names are exposed when none repeats an exposed name; otherwise the loop ends with "Cannot redefine property" at the first name that repeats (no name before it repeats), and exactly the names before it are exposed |
| `Engine.UdpRpc.GenId` | lib/udp-rpc.js:80-90 | the drawn id is not a pending id, and it is the first candidate that is not one |
| `Engine.UdpRpc.ExecRpc` | lib/udp-rpc.js:5-29 | a request over 500 bytes throws "Payload too large" and nothing is sent or recorded; otherwise the request goes to the parsed address; a send error reaches the callback and adds no entry; a successful send adds exactly one entry, under the fresh id, holding the callback, method, ip and port |
| `Engine.UdpRpc.ReceiveRpc` | lib/udp-rpc.js:31-61 | the datagram is routed as `Classify` says, on the table before the call; a response runs that entry's callback with the remaining fields and then removes the entry, unless the callback throws; a request runs the handler with its params and reply and never changes the table; other datagrams change nothing; an error thrown by the callback or handler propagates; nothing is sent |
| `Engine.UdpRpc.Reply` | lib/udp-rpc.js:46-55 | exactly one datagram is sent, to the requester's address and port, carrying the reply or its substitute; a send error is returned as fatal |

## Left out

- The dgram socket is not modelled: its creation, `bind`, the `listening` handler, `die` and `close` (lib/udp-rpc.js:2, 64-77) are I/O. `send` appends to the `sent` log, and its outcome is an argument.
- `crypto.randomBytes` and the `Math.random` fallback (lib/udp-rpc.js:84-86) are random. The candidate ids are an argument. `GenId` and `ExecRpc` require that some candidate is not a pending id, because the source's loop would not end otherwise.
- The `throw err` in the reply's send callback (lib/udp-rpc.js:54) is an asynchronous crash of the process. `Reply` returns the error as its fatal result instead.
- The call stubs that `Object.defineProperty` installs on the node (lib/udp-rpc.js:92-97) are JavaScript metaprogramming. `DefineMethods` models them by the names it adds. The model does not cover a method name that coincides with one of the node's own fields (`messages`, `methods`, `genId`, `die`, …), which would overwrite that field.
- Inherited members of `Object.prototype` are not modelled. Because of them, the source's `typeof` tests also accept names such as `toString` as methods (lib/udp-rpc.js:40). The model's method table holds only the exposed names.
- Callbacks and handlers are foreign functions. Their invocations are logged with their arguments, and whether they throw is an argument. What else they do is not modelled. `this` is not recorded.
- Engine.UdpRpc.ReceiveRpc: does not model a callback that itself issues a new call or receives a datagram before it returns. In the source the response's entry is deleted only after the callback returns (lib/udp-rpc.js:38-39), so such a nested `genId` still sees the answered id as pending. The model runs the callback as one step and treats nested calls as happening after `ReceiveRpc`.
- Routing.ResponseConsumedOnce: holds for a callback that returns normally. A callback that throws leaves its entry pending, so the same response runs it again; `ReceiveRpc` states this, and the scenario `ThrowingCallback` shows it.
- The `callTs` timestamp and the debugging-only `rpcParams` of a pending entry (lib/udp-rpc.js:20, 25) are not modelled.
- Interleavings of event-loop callbacks are not modelled. In the source, the id is drawn before the send but registered only in the send callback (lib/udp-rpc.js:9, 19). The model treats each operation as running to completion.
- JavaScript's loose `==` between the numeric `info.port` and the string port (lib/udp-rpc.js:35) is not modelled. Ports are strings on both sides, so `"080"` does not match `80` here.
- Arguments and results are strings. The source's `join` would also render numbers, objects, `null` and `undefined` (the last two as empty fields). An undefined request id (a request with no second field) is modelled as the empty string, which is what `join` renders it as.
- `toString('utf8')` on an inbound datagram is not modelled: messages arrive as decoded text. Characters are Unicode scalar values, so a JavaScript string holding a lone surrogate is not covered.
- The test file `test/udp-rpc.test.js` is not part of this model. It uses an event API and a caller-address argument that the library does not implement.
- Fragmentation, checksums, reassembly and call timeouts are not modelled. The library has none of them.
