# raspicam-server live streaming: ready-gated broadcast and service registry

This project models the bookkeeping of the raspicam live image server
(`src/main.cpp`) that sits between the camera loop and the websocket
transport, and proves its backpressure protocol.

- `live_service` is one broadcast channel. It keeps a table `ready_` from
  websocket connection to a boolean. A connection enters the table not
  ready, becomes ready when it sends a JSON control message whose configured
  field (`"ready"`) reads `true`, and leaves on disconnect. `send(data)` walks
  the table; every ready connection is sent the frame once and becomes not
  ready again, every other connection is skipped. A subscriber is therefore
  owed at most one frame at any time.
- `request_handler` keeps the named live services (`websocket_services_`):
  `init` looks a name up or creates its service, `unique_init` refuses a
  name in use, `uninit` removes one, and `send` forwards a frame to the named
  service. Services are addressed by `websocket_identifier` values.
  `http_server` forwards the same four operations to its request handler.

Modules, one per component:

- `wrappers.dfy` (`Wrappers`): `Option`, `Result`, `Outcome`.
- `subscribers.dfy` (`Subscribers`): the `ready_` table as a value, and
  what the connect, disconnect and message callbacks and `send` do to it.
  `send` visits the table in `std::map` key order, modelled by `Ascending`.
- `protocol.dfy` (`Protocol`): a live service's state (table plus the
  history of `send_binary` calls) and runs of events over it; the
  no-banked-credit and one-signal-one-frame results.
- `live_service.dfy` (`LiveServices`): the `LiveService` class, whose
  callbacks and `send` loop update the table in place and are proved
  against `Protocol.Step`.
- `request_handler.dfy` (`Registry`): the registry as a value, the
  `RequestHandler` and `HttpServer` classes proved against it.

Three facts about the code that a reader of the model should know:

- `uninit` of a name that is not registered calls `shutdown_service` for
  the name all the same, and its `erase` removes nothing.
- The connect callback uses `emplace`, so a connection already in the table
  keeps its flag.
- `request_handler::send` holds the registry mutex while it calls the
  service's `send` (src/main.cpp:202-203). Locks are not modelled (see
  "Left out").

## Model

| member | source | states |
|---|---|---|
| `Subscribers.ReadyField` | src/main.cpp:104 | the configured field's value is read when the field is present, and a missing field yields none, so only a field reading `true` makes the connection ready |
| `Subscribers.Connected` | src/main.cpp:110-113 | connect adds the connection not ready; a connection already present keeps its flag; every other entry is unchanged |
| `Subscribers.Disconnected` | src/main.cpp:114-117 | disconnect removes exactly that connection's entry and leaves every other entry unchanged |
| `Subscribers.Signalled` | src/main.cpp:99-108 | the key set is unchanged, other entries are unchanged, and a known connection's flag afterwards is its old flag or'ed with "the field read `true`"; an unknown connection changes nothing |
| `Subscribers.Drained` | src/main.cpp:121-128 | after `send` the key set is unchanged and no connection is ready |
| `Subscribers.Min` | src/main.cpp:123 | the first key `std::map` visits is in the set and no larger than any other key |
| `Subscribers.AscendingMembers` | src/main.cpp:123 | the visit order lists every key of the set and no other |
| `Subscribers.AscendingSorted` | src/main.cpp:123 | the visit order is strictly increasing, so no key is visited twice |
| `Subscribers.AscendingLength` | src/main.cpp:123 | the visit order has one entry per key of the set |
| `Subscribers.AscendingSnoc` | src/main.cpp:123 | a key larger than all visited ones is visited after them |
| `Subscribers.Broadcast` | src/main.cpp:121-128 | each `send_binary` call of one `send` goes to a connection that is in the table and ready, carries the frame unchanged, the calls are in increasing key order, and there is one per ready connection |
| `Subscribers.ReceivedFromDistinct` | src/main.cpp:123-126 | a batch naming each connection at most once gives each connection the frame once if it is named and nothing otherwise |
| `Subscribers.BroadcastReachesReadyOnce` | src/main.cpp:123-126 | one `send` gives every ready connection the frame exactly once and every not-ready or unknown connection nothing |
| `Protocol.Credits` | src/main.cpp:104-106 | the count of ready messages reading `true` from a subscriber is zero exactly when there is none |
| `Protocol.Step` | src/main.cpp:99-128 | one callback or `send`: only `send` adds to the delivery history, and only adds to it; a connection is ready afterwards only if it was ready before or the event is its ready message reading `true` |
| `Protocol.StepReceived` | src/main.cpp:99-128 | an event adds to a subscriber's received frames only the frame of a `send`, and only when the subscriber was owed one |
| `Protocol.RunAppend` | src/main.cpp:99-128 | running two sequences of events one after the other is running their concatenation |
| `Protocol.RunExtendsLog` | src/main.cpp:126 | over any run the delivery history is only extended: earlier `send_binary` calls are never undone or reordered |
| `Protocol.NoFrameWithoutCredit` | src/main.cpp:99-128 | over any run, frames received plus the frame still owed never exceed what was owed at the start plus the number of ready messages reading `true` |
| `Protocol.NeverReadyReceivesNothing` | src/main.cpp:99-128 | a subscriber that is not owed a frame and sends no ready message reading `true` receives nothing over any run and still is owed nothing |
| `Protocol.OneSignalOneFrame` | src/main.cpp:99-128 | one ready message from a connected subscriber followed by k >= 1 sends gives it exactly one frame, the first one sent |
| `Protocol.SignalIdempotent` | src/main.cpp:106 | handling the same ready message twice gives the same state as handling it once |
| `Protocol.RepeatedSignalsAreOne` | src/main.cpp:106 | any n >= 1 ready messages reading `true` in a row have the effect of exactly one: the flag is a boolean, not a counter |
| `Protocol.NoBankedCredit` | src/main.cpp:99-128 | n >= 1 ready messages from a connected subscriber followed by k >= 1 sends give it exactly one frame, the first one sent |
| `LiveServices.LiveService.constructor` | src/main.cpp:97-119 | a new service has the given ready-signal field, an empty table and has sent nothing |
| `LiveServices.LiveService.OnConnect` | src/main.cpp:110-113 | the table becomes `Connected` of the old one; nothing is sent |
| `LiveServices.LiveService.OnDisconnect` | src/main.cpp:114-117 | the table becomes `Disconnected` of the old one; nothing is sent |
| `LiveServices.LiveService.OnMessage` | src/main.cpp:99-108 | the table becomes `Signalled` of the old one with the configured field of the message; nothing is sent |
| `LiveServices.LiveService.Send` | src/main.cpp:121-128 | the table becomes `Drained` of the old one and the calls of `Broadcast` on the old table are appended to the history |
| `Registry.Initialized` | src/main.cpp:174-184 | after `init` the name is registered; a new name gets an empty service that has sent nothing; every registered service is unchanged |
| `Registry.InitOf` | src/main.cpp:174-184 | `init` returns the identifier of the name, with `success` exactly when the name was not registered |
| `Registry.UniqueInitOf` | src/main.cpp:186-193 | `unique_init` returns the identifier exactly when the name was free, and the duplicate-name error otherwise |
| `Registry.Uninitialized` | src/main.cpp:195-199 | `uninit` removes that name, if present, and leaves every other service unchanged |
| `Registry.Sent` | src/main.cpp:201-204 | `send` fails with the out-of-range error exactly when the name is not registered; otherwise the named service takes one `send` step and every other service is unchanged |
| `Registry.InitTwice` | src/main.cpp:174-184 | `init` twice under a new name: the first succeeds, the second does not, changes nothing and returns the same identifier |
| `Registry.InitKeyAddressesService` | src/main.cpp:139-152 | the `key` of the `http_server_init_t` that `init` returns (a `websocket_identifier` naming the service) addresses the service registered under that name, whether `success` is set or not: `send` through it reaches that service only and `uninit` through it removes that one only |
| `Registry.UniqueInitAfterUninit` | src/main.cpp:186-199 | `unique_init` of a registered name fails, and succeeds again after `uninit` of that name |
| `Registry.RequestHandler.constructor` | src/main.cpp:156-172 | a new request handler has no services and has made no transport calls |
| `Registry.RequestHandler.Init` | src/main.cpp:174-184 | returns `InitOf`, the services become `Initialized`, every service object already registered stays the same object, a new name gets a newly created object, and `register_service` is called only for a new name |
| `Registry.RequestHandler.UniqueInit` | src/main.cpp:186-193 | returns `UniqueInitOf`, the services become `Initialized`, every service object already registered stays the same object, on success the name gets a newly created object, and `register_service` is called only on success |
| `Registry.RequestHandler.Uninit` | src/main.cpp:195-199 | the name is erased, the services become `Uninitialized`, and `shutdown_service` is called for the name |
| `Registry.RequestHandler.Send` | src/main.cpp:201-204 | passes exactly when the name is registered, and then the services become the result of `Sent`; otherwise it fails with `Sent`'s error and changes nothing |
| `Registry.HttpServer.constructor` | src/main.cpp:224-230 | a new server's request handler has no services and has made no transport calls |
| `Registry.HttpServer.Init` | src/main.cpp:242-244 | forwards to the request handler's `init`, with the same result and effect |
| `Registry.HttpServer.UniqueInit` | src/main.cpp:246-248 | forwards to the request handler's `unique_init`, with the same result and effect |
| `Registry.HttpServer.Uninit` | src/main.cpp:250-252 | forwards to the request handler's `uninit`, with the same effect |
| `Registry.HttpServer.Send` | src/main.cpp:254-256 | forwards to the request handler's `send`, with the same result and effect |

## Left out

- `live_chain` (src/main.cpp:267-329): a thread that paces capture with a
  clock and `sleep_for`, stopped by an atomic flag; threads, time and the
  retry wrappers are not modelled. A failed iteration is logged and the loop
  goes on, so one failure never stops the stream.
- `camera` (src/main.cpp:63-92) and `to_jpg_image` (src/main.cpp:21-58):
  wrappers around the raspicam driver and the turbojpeg codec, neither of
  which is part of this model.
- The websocket and HTTP transport: `send_binary` is recorded as a ghost
  history of deliveries, `register_service` and `shutdown_service` as a
  ghost list of transport calls; request dispatch, the file handler, the
  server threads, `http_server::shutdown` and the destructors are not
  modelled, nor the `http_root_path`, port and thread-count parameters.
- Boost property-tree JSON parsing: a control message is modelled as its
  top-level fields, each with how its value reads as a boolean. Dotted
  paths and the exact text-to-boolean conversion are not modelled. The model
  assumes that a message the transport cannot parse as JSON never reaches
  the callback.
- The mutexes: each callback and each registry operation is modelled as
  one atomic step, so interleavings inside an operation (and the registry
  lock being held across a service's `send`) are not modelled.
- Connections are modelled by natural numbers in the order of their
  addresses, which is the order `std::map` visits them.
- `websocket_identifier` has a private constructor, so only the request
  handler can create one; the model does not restrict who builds an
  identifier value, so it does not capture that identifiers are unforgeable.
  The reference member that can dangle after `uninit` is modelled as the
  name's value.
- Exceptions from the transport: `send_binary`, `register_service` and
  `shutdown_service` are assumed never to throw. A throw from `send_binary`
  (src/main.cpp:126) would leave the table partly cleared and propagate out
  of `request_handler::send`; a throw from `register_service`
  (src/main.cpp:180) would leave a service created in the registry but
  never registered with the transport. Neither outcome is modelled.
- `main` (src/main.cpp:332-356): argument handling and console I/O.
