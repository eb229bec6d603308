# Signalling relay: a Dafny model of the message handler

The relay lets browsers set up peer-to-peer connections. Each browser keeps a
WebSocket open to the server. It sends `{action: 'start'}` to obtain an id.
It then sends negotiation messages (`offer`, `answer`, `candidate`, …) naming
a peer in `data.remoteId`. The server looks the peer up among its connected
sockets, rewrites `remoteId`, and forwards the message. This project models
that handler from `src/server.js` and proves what it does to the server's
state.

State and values:

- `Json.Value` is a parsed message. `Json.Member` and `Json.Truthy` give the
  two pieces of JavaScript the handler depends on. Reading a property of
  `undefined` or `null` throws a `TypeError`. For the three keys the handler
  reads (`action`, `data`, `remoteId`), which no built-in prototype defines,
  any other value yields its own field or `undefined`. Truthiness treats `undefined`, `null`, `false`, `0` and `""`
  as false.
- `Signaling.Socket` is one connected socket. It holds the id stored on it
  (unset until `start`), its WebSocket ready state, and its outbox: every
  envelope sent to it, as serialised.
- `Server.Relay` holds `clients`, the WebSocket server's tracked sockets in
  insertion order. Its methods do what the server does, step by step.
  `HandleJsonMessage` is proved equal to the functional specification
  `Signaling.Step`. The lemmas in `SignalingProperties` and
  `SignalingScenario` are about `Step` and `Run`.
- The fresh id that `nanoid()` would return is a parameter, `token`.

A few points where the code behaves differently from what a reader might
expect of a signalling registry:

- There is no separate registry map, and nothing rejects a duplicate id. Ids
  live on the sockets. The lookup is a linear scan that returns the first
  socket holding the id. Ids stay unique when every `start` token is fresh
  (`RunKeepsIdsUnique`).
- A second `start` overwrites the socket's id, so the old id stops resolving
  at once (`RestartReleasesOldId`). No stale binding to the old id survives.
- The lookup does not filter by ready state, so it can return a socket that
  is `Closing` or `Connecting`. The send to it then does nothing.
- Suppose a socket sends an `offer` before it has sent `start`. The code sets
  `remoteId` to `undefined`, and `JSON.stringify` omits that key. So the peer
  receives the offer with no `remoteId` (`Signaling.Rewrite`).

## Model

| member | source | states |
|---|---|---|
| `Json.Member` | src/server.js:42 | Reading a property throws exactly when the base is `undefined` or `null`. For a key no built-in prototype defines, a present own field of an object is returned, and any other read of a defined, non-null base yields `undefined`. |
| `Json.FalsyValues` | src/server.js:43 | The `!` test: `undefined`, `null`, `false`, `0` and `""` are falsy, and every other value is truthy. |
| `Signaling.GetSocketById` | src/server.js:76-77 | Returns the first socket whose id strictly equals the key, or nothing when no socket has it. A returned socket always has an id set. |
| `Signaling.Rewrite` | src/server.js:51-55 | For an `offer` from a sender with an id, `data.remoteId` becomes that id. Otherwise `remoteId` is absent. `action`, every other top-level field and every other `data` key stay unchanged. |
| `Signaling.Step` | src/server.js:35-58 | Handling one message never adds or removes sockets and never changes a ready state. It changes no id except the sender's, and the sender's only to the token on `start`. It appends at most one envelope, to at most one open socket. |
| `Server.Relay.constructor` | src/server.js:14 | The server starts with no tracked sockets. |
| `Server.Relay.Accept` | src/server.js:16-17 | A new connection (the WebSocket library adds it to the tracked set when the `connection` event registered here fires) is appended to the tracked sockets: open, without an id, nothing sent. |
| `Server.Relay.Disconnect` | src/server.js:30-32 | A closed socket leaves the tracked set (the library deletes it when the `close` event registered here fires). The others keep their order. |
| `Server.Relay.EmitMessage` | src/server.js:61-74 | The envelope is appended to the socket's outbox only if the socket is `Open`. Nothing else changes. |
| `Server.Relay.HandleJsonMessage` | src/server.js:35-59 | The in-place handler leaves exactly the sockets, and returns exactly the outcome, that `Step` gives. |
| `Server.Relay.OnMessage` | src/server.js:19-28 | A message that fails to parse changes nothing. A parsed message is handled as `Step` says, and a thrown error is swallowed. |
| `SignalingProperties.FailureChangesNothing` | src/server.js:22-27 | Handling fails exactly when it throws: on a `null` message, or a routed message whose `data` is missing or `null`. The throw is caught and no state changes. |
| `SignalingProperties.StartBindsToken` | src/server.js:37-40 | `start` sets the sender's id to the token, overwriting any earlier id. It appends `{action:'start', id}` to the sender's outbox if the sender is open. No other socket changes. |
| `SignalingProperties.FalsyRemoteIdChangesNothing` | src/server.js:43 | A routed message whose `data.remoteId` is undefined or falsy is dropped. No state changes. |
| `SignalingProperties.UnknownRemoteIdChangesNothing` | src/server.js:45-49 | A routed message whose `remoteId` matches no socket is dropped. No state changes. |
| `SignalingProperties.ForwardReachesOnlyDestination` | src/server.js:57-62 | The forwarded envelope is appended only to the destination's outbox, and only if the destination is open. The destination has an id. Every other socket, and every id, is unchanged. |
| `SignalingProperties.LookupFindsHolder` | src/server.js:76-77 | When ids are unique, looking up a socket's id returns that socket. |
| `SignalingProperties.StepKeepsIdsUnique` | src/server.js:38 | Handling a message keeps ids unique, provided a `start` brings a token no socket holds. The only id it can add is the token. |
| `SignalingProperties.StartedIdIsReachable` | src/server.js:37-45 | When ids are unique and the token is fresh, looking up the id handed out by `start` returns the sender straight away. |
| `SignalingProperties.StartedIdIsRoutable` | src/server.js:37-57 | When ids are unique and the token is fresh and non-empty, a routed message from any tracked socket naming the new id is forwarded to the sender of `start`, and lands in its outbox if it is open. |
| `SignalingProperties.RestartReleasesOldId` | src/server.js:38 | After a second `start` with a new token, the sender's previous id resolves to no socket. |
| `SignalingProperties.ClosedIdIsUnknown` | src/server.js:45-49 | After a socket with a unique id is removed, a routed message to that id is not forwarded. The state is unchanged. |
| `SignalingProperties.ApplyKeepsIdsUnique` | src/server.js:16-40 | Connecting, closing, and handling a message each keep ids unique, provided a `start` brings a token no tracked socket holds. Only a `start`'s token can be a new id. |
| `SignalingProperties.RunKeepsIdsUnique` | src/server.js:19-40 | Over any run of connections, closes and messages in which each `start` brings a token no socket tracked at that moment holds, no two tracked sockets share an id. Every id in use was held at the start or handed out by a `start` of the run. |
| `SignalingScenario.BothRegister` | src/server.js:37-40 | Two sockets connect and send `start`. Each then holds its own id and has received exactly its own reply. |
| `SignalingScenario.OfferReachesB` | src/server.js:51-57 | A's offer to `B1` reaches B with `remoteId` set to `A1` and `sdp` untouched. |
| `SignalingScenario.AnswerReachesA` | src/server.js:51-57 | B's answer to `A1` reaches A with `remoteId` removed and `sdp` untouched. |
| `SignalingScenario.OfferAnswerExchange` | src/server.js:35-59 | The whole exchange (connect, start, offer, answer) ends with A's outbox holding its reply and B's answer (with `remoteId` removed), and B's holding its reply and A's offer (with `remoteId` set to `A1`), ids `A1` and `B1` (`Answered`). |
| `SignalingScenario.ClosedPeerUnreachable` | src/server.js:45-49 | After A disconnects, an offer to `A1` reaches no one and changes nothing. |

## Left out

- Express static serving, HTTP server creation and `listen` (src/server.js:8-14, 79-81). These are process and I/O setup.
- `JSON.parse` and `JSON.stringify`. A message arrives already parsed; a parse failure is `None`. The only serialisation effect modelled is that a key set to `undefined` is omitted. JSON objects are maps, so key order is not modelled.
- `nanoid()`. The id is the caller-supplied `token`. Nothing is claimed about its uniqueness beyond what the caller provides: `FreshTokens` asks only that each `start` token differ from the ids held by the sockets tracked when it arrives. `StartedIdIsRoutable` assumes the token is non-empty, as every generated id is; an empty id would be falsy and never routed.
- The Promise and send-callback machinery, and the rejection when a send fails (src/server.js:63-72). A send to an open socket is an append to its outbox. A send that fails at the transport is not modelled. In the source the `start` reply's promise (src/server.js:39) is not awaited, unlike the routed send (src/server.js:57): a failed `start` reply would escape the catch at src/server.js:25 as an unhandled rejection, while a failed routed send is caught there.
- Concurrency and the interleaving of connection, message and close events. Each event is one atomic step of `Run`. The WebSocket library's own effect of adding a socket on connection and deleting it on close is modelled, as the `Connect` and `Disconnect` events (`Relay.Accept`, `Relay.Disconnect`); the rest of the library is not. Ready-state changes are also made by that library, so a socket's ready state is part of the given state rather than an event.
- `console.log` and `console.error` output.
- JSON numbers are reals rather than IEEE doubles. Only their truthiness matters here: `0` is falsy. A literal such as `1e-400` underflows to `0` in JavaScript and is falsy there, but is a non-zero real here. Both drop the message with no state change; only the outcome label differs (`UnknownDestination` here, where the code's drop corresponds to `NoDestination`).
- The JavaScript prototype chain. `Json.Get` and `Json.Member` give only own fields, so `"abc".length` or `({}).constructor` would read as `undefined`. The handler reads only `action`, `data` and `remoteId`, which no built-in prototype defines.
- `Server.Relay.HandleJsonMessage` and `Server.Relay.OnMessage` take the sender as an index into the tracked sockets (`requires src < |clients|`). The WebSocket server only delivers messages from sockets it tracks.
