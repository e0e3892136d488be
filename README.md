# Website portal API client, modelled in Dafny

This project models the client object `WebsitePortalAPI` (`index.js`). A
"portal" device uses it to register with a coordination server, log in,
manage pairing codes, pair with other portals and relay URLs to them, all
over a socket.io connection. The model covers the instance's own state:
`_portalId`, `_portalToken`, `_loggedIn`, the socket `_io` (reduced to its
`connected` flag, the promise `connect` returned and the
`disconnectedCallback`), and the listener list `_urlListeners`. It also
covers every handler that changes that state. The socket is an event
source. It reports `connect`, `connect_error` and `disconnect`, it pushes
`receiveUrl`, and it delivers the acknowledgement of every emitted call.

The project has five files:

- `wrappers.dfy`: `Option`, which stands for JavaScript's `undefined`.
- `promises.dfy`: a promise reduced to one cell, `Pending | Resolved | Rejected`. The first settlement wins.
- `wire.dfy`: the nine remote operations, their fixed event names and payload shapes (`Encode`), and a reader (`Decode`) that recovers each operation from its message.
- `session.dfy`: the instance state as a value, one transition per method and per socket handler, traces of events (`Step`, `Run`), and the lemmas.
- `portal_api.dfy`: the class `WebsitePortalApi`, with the same fields updated in place. Each method is proved to reach the state its `Session` transition gives, and to keep the object invariant `Valid()` (`_loggedIn` is false). Three client methods replay short scenarios.

Each call of a remote operation becomes a `PendingCall`. It records the
operation, the message emitted for it, whether its acknowledgement has
arrived, and the outcome of the promise it returned. Calls into the
caller's functions (URL listeners, the disconnect callback) are recorded in
order in `invoked`. `bcrypt.hashSync` is a foreign library, so it is the
uninterpreted function `hash` handed to the constructor.

Where the code differs from the natural reading of its design, the model
follows the code:

- The not-connected guard of every operation (`index.js:36-38` and the same
  lines in the other eight) rejects the promise but does not `return`. If a
  socket exists, the call is still emitted. Its later acknowledgement still
  runs the callback, but it cannot change the promise that is already
  rejected. For a login, that callback still writes the id and the token.
- `_loggedIn` is set to `false` in the constructor and is never set to
  `true`. So `loggedIn` is false in every reachable state, including right
  after a successful login.
- A successful login stores the plaintext token, not its hash (`index.js:68-69`).
- The `disconnect` handler is a plain `function` (`index.js:18`), so its
  `this` is the socket. Its three assignments do not touch the instance.
  The id, the token and the logged-in flag survive a disconnect. Only the
  socket's own `connected` flag changes, and the callback runs if one was
  given.

## Model

| member | source | states |
|---|---|---|
| `Session.Init` | index.js:207-213 | after construction the id and token are undefined, `_loggedIn` is false, there is no socket, no listener and no call, so `connected` and `loggedIn` are false |
| `PortalApi.WebsitePortalApi.constructor` | index.js:207-213 | the new instance is the initial state and satisfies the invariant that `_loggedIn` is false |
| `PortalApi.WebsitePortalApi.Connected` | index.js:215-217 | the getter is the socket's `connected` flag, false without a socket, the same as the state model's `Connected` |
| `PortalApi.WebsitePortalApi.LoggedIn` | index.js:219-221 | the getter only reads `_loggedIn`, and under the object invariant it is false |
| `Session.NeverLoggedIn` | index.js:210 | after any sequence of method calls and socket events from construction, `loggedIn` is false |
| `Session.ConnectedThroughLifecycle` | index.js:5-31 | a fresh socket is not connected; after `connect` it is connected and the connect promise resolves; after `connect_error` it is not connected and the promise rejects with the error, or with "Connection failed" when there is none; after `disconnect` it is not connected |
| `PortalApi.WebsitePortalApi.Connect` | index.js:5-31 | `connect` installs a new, unopened socket with a pending promise and the given disconnect callback, and changes no other field |
| `PortalApi.WebsitePortalApi.HandleConnect` | index.js:14-16 | the `connect` handler opens the socket and resolves the connect promise unless it has already settled |
| `PortalApi.WebsitePortalApi.HandleConnectError` | index.js:28-30 | the `connect_error` handler rejects the connect promise with the error or "Connection failed", and does not open the socket |
| `Session.DisconnectKeepsCredentials` | index.js:18-26 | a disconnect keeps the id, the token and `_loggedIn`, leaves the socket not connected, changes no call and no listener, and calls the disconnect callback exactly when one was given |
| `PortalApi.WebsitePortalApi.HandleDisconnect` | index.js:18-26 | the `disconnect` handler reaches the state of `Session.OnDisconnect` and leaves the instance's id and token unchanged |
| `PortalApi.WebsitePortalApi.OnUrl` | index.js:194-199 | `onUrl` reaches the state and the thrown error that `Session.OnUrl` gives |
| `Session.OnUrl` | index.js:194-199 | a function is appended at the end of the listener list and nothing else changes; anything else throws "Callback is not a function" and leaves the state unchanged |
| `Session.FanoutLength` | index.js:201-205 | the fan-out makes one call per registered listener |
| `Session.FanoutAt` | index.js:201-205 | the i-th call of the fan-out goes to the i-th listener, with the pushed url |
| `Session.ReceiveUrlCallsEachListener` | index.js:201-205 | `_receiveUrl(url)` calls every listener exactly once, in registration order, each with `url`, after every earlier call, and changes nothing else |
| `PortalApi.WebsitePortalApi.ReceiveUrl` | index.js:201-205 | the `forEach` loop appends the calls of the fan-out for `url` to the record of calls made, and leaves every other field as it was |
| `PortalApi.WebsitePortalApi.HandleReceiveUrl` | index.js:10-12 | the `receiveUrl` push runs `_receiveUrl` with the pushed url |
| `Session.ListenersAppendOnly` | index.js:198 | a registered listener keeps its position in the list after any sequence of events |
| `Wire.DecodeEncode` | index.js:40-183 | every emitted message carries the complete operation under its fixed event name and payload shape, with a login token replaced by its hash |
| `Wire.EncodeInjective` | index.js:40-183 | two operations give the same message only when they are the same operation, up to the hash of a login token |
| `Wire.LoginSendsHash` | index.js:57-59 | the login message carries the id and `hash(token)`, which differs from the plaintext token whenever the hash does |
| `Session.CallEmits` | index.js:40 | every operation adds exactly one call, waiting for its acknowledgement, and changes nothing else; with a socket the call is emitted with the operation's name and payload, and without one nothing is emitted |
| `Session.CallGuard` | index.js:36-38 | when connected the new promise is pending; when not connected it is rejected with "Not connected", and if a socket exists the call is emitted all the same and awaits its acknowledgement |
| `Session.NotConnectedStaysRejected` | index.js:36-47 | a call made while not connected stays rejected with "Not connected" after any later events, acknowledgements included |
| `Promises.FirstSettlementWins` | index.js:37 | once a promise is settled, later resolves and rejects leave it unchanged |
| `Session.LoginAck` | index.js:59-71 | an error acknowledgement of a login clears the id and the token and rejects with the error text; a success stores the id and the plaintext token and resolves with nothing; either way only that call and those two fields change, and `_loggedIn` stays as it was |
| `Session.OtherAck` | index.js:41-46 | for every other operation an acknowledgement changes no field and only settles its call: rejected with the error text, or resolved with the returned data for register, the two pairing code getters and `getPairedPortalsData`, and with nothing for the rest |
| `Session.AckOnce` | index.js:40-47 | a second acknowledgement of the same call changes nothing |
| `PortalApi.WebsitePortalApi.HandleAck` | index.js:59-71 | an acknowledgement runs the callback of the call it answers, as `Session.Acknowledge` gives |
| `Session.StepExtends` | index.js:4-222 | no single method or event changes `_loggedIn`, shortens the listener list or the record of calls made, or changes a call's operation, its message or a settled outcome |
| `Session.RunExtends` | index.js:4-222 | the same holds across any sequence of method calls and socket events |
| `PortalApi.WebsitePortalApi.Invoke` | index.js:35-48 | the shared guard-then-emit pattern reaches the state of `Session.Call` and returns the index of the new call |
| `PortalApi.WebsitePortalApi.Register` | index.js:34-49 | `register` is the shared pattern with `{platform, name}` |
| `PortalApi.WebsitePortalApi.Login` | index.js:51-73 | `login` is the shared pattern with `{id, token: hash(token)}` |
| `PortalApi.WebsitePortalApi.GetPairingCode` | index.js:75-90 | `getPairingCode` is the shared pattern with no payload |
| `PortalApi.WebsitePortalApi.ResetPairingCode` | index.js:92-107 | `resetPairingCode` is the shared pattern with no payload |
| `PortalApi.WebsitePortalApi.RemovePairingCode` | index.js:109-124 | `removePairingCode` is the shared pattern with no payload |
| `PortalApi.WebsitePortalApi.GetPairedPortalsData` | index.js:126-141 | `getPairedPortalsData` is the shared pattern with no payload |
| `PortalApi.WebsitePortalApi.Rename` | index.js:143-158 | `rename` is the shared pattern with the name as its one argument |
| `PortalApi.WebsitePortalApi.Pair` | index.js:160-175 | `pair` is the shared pattern with the code as its one argument |
| `PortalApi.WebsitePortalApi.SendUrl` | index.js:177-192 | `sendUrl` is the shared pattern with the id and the url as two arguments |

## Left out

- socket.io itself (`index.js:1`, `index.js:7`) is not modelled: opening the connection, the server address, `reconnection: false`, the buffering of emits made while the socket is closed, and how acknowledgements are matched to calls. The model sees only the events this code handles. An acknowledgement names its call by index. One for a call that was never emitted or was already answered is ignored, as socket.io drops acknowledgements it holds no callback for.
- bcrypt (`index.js:2`, `index.js:57`) is the uninterpreted function `hash`. Its random salt, which makes two hashes of one token differ, is not modelled.
- With no socket at all, `this._io.emit` throws a TypeError inside the promise's executor after the rejection. The model records no message and keeps the rejection, and does not model the TypeError.
- The listeners and the disconnect callback are opaque functions. The model records each call made to them. It does not model their effects, their exceptions (one that throws stops the `forEach`), or calls they make back into the API.
- The three assignments in the `disconnect` handler land on the socket object as new properties. The model does not represent those properties.
- Calling `connect` a second time replaces the socket. Events from the earlier socket are not modelled.
- JavaScript values are reduced to strings: ids, tokens, names, codes and URLs. Server data is an opaque type. An acknowledgement's error is its `error.error` text. Falsy error values, error objects without an `error` field, and a non-function `disconnectedCallback` are not modelled. The connect promise rejects with the error's text rather than the error object.
- The Promise and event-loop machinery beyond first-settlement-wins is not modelled. Handlers run to completion one at a time. There are no timeouts or cancellation.
- What the server decides is outside this file and is not modelled: whether a pairing code rotates on reset, whether a pair or a send is allowed, what register returns.
