# ng2-signalr connection wrapper and factory, modelled in Dafny

This project models the core of ng2-signalr, an Angular client for ASP.NET Core SignalR hubs, in three parts.

- **The connection wrapper `SignalRConnection`** (module `Connection`). It owns one hub connection. It keeps a registry from server event name to the callbacks it registered on the hub with `on`, and removes them again with `off` in `stopListening`. It turns the lifecycle into a status stream and an error stream: `start`, `stop`, and the hub's close notification. Every emission is routed through the zone runner `run`, on a path chosen by one of the configuration's zone flags.
- **The factory `SignalR`** (module `Service`). `merge` combines per-call options with the base configuration. `createConnection` builds a hub, registers the `noOp` handler on it and wraps it. `connect` is `createConnection` followed by `start`.
- **The configuration defaults** (module `Config`): the values `new SignalRConfiguration()` starts with.

## How the model is built

- **The hub library.** It appears as a value, `AspNetSignalR.HubConnection`. The value holds:
  - the URL, HTTP options and log level the builder received;
  - the `on` registrations, in order;
  - a log of the `start`, `stop` and `invoke` calls.
- **Dispatch.** When the server invokes an event, the hub calls every handler registered under that name, in registration order (`Connection.Dispatch`).
- **Callbacks.** Each callback closure is a `Forward(id, projection, listener)` value, where `id` stands for the closure's identity. The wrapper's `nextId` makes every new closure distinct from every closure already on the hub.
- **Subjects and the zone runner.** The rxjs subjects become append-only logs on the wrapper: `statuses`, `errors`, and `deliveries`, which holds the values handed to each listener. The zone runner becomes the log `runs`, which records the path each action took.
- **Asynchronous outcomes.** Outcomes of the hub's `start` and `invoke` are parameters of the corresponding methods.
- **Module layout.** `Wrappers` and `Js` hold the shared datatypes: `Option`, `Result`, and JavaScript values with their truthiness. `Scenarios` strings the operations together the way a client would.

The class invariant `SignalRConnection.Valid()` ties the registry and the hub together in both directions:
- every callback stored in the registry under an event forwards to a listener of that event, is registered on the hub under that event exactly once, and has an identity below `nextId`;
- every forwarding callback on the hub is stored in the registry under the event it is registered with.

Every state-changing method keeps this invariant. JavaScript's `||` is `Js.Or`, and `merge` is stated field by field against it.

## Model

| member | source | states |
|---|---|---|
| Config.DefaultsAsDocumented | src/services/signalr.configuration.ts:45-58 | With no fields set, the configuration has no url, hub name, query string or HTTP options, and the last two are falsy. Logging is at Error. JSONP and credentials are off. The transport is automatic and the ping interval is 300000. Events and status changes run inside the zone; errors run outside it. |
| Service.Merge | src/services/signalr.ts:58-73 | Each merged field, read as a JavaScript value, is `Or(override, base)`, the JavaScript `override \|\| base`. So a falsy override (absent, null, `''`, `0`, `false`) leaves the base value and any truthy one replaces it. A transport override is an object and always replaces the base. `logging` always comes from the base. |
| Service.MergeWithoutOptions | src/services/signalr.ts:23 | Merging the empty options `{}` gives a configuration equal, field for field, to the base. |
| Service.FalseOverrideKeepsZoneFlags | src/services/signalr.ts:68-70 | For each zone flag on its own, an override of `false` leaves the flag as the base has it, so it cannot switch off a base `true`. |
| Service.DefaultZoneFlags | src/services/signalr.ts:68-70 | Over the defaults, events and status changes stay inside the zone whatever the options say. Errors run inside it exactly when the options set the flag to `true`. |
| Service.ZeroPingIntervalFallsBack | src/services/signalr.ts:71 | A ping interval of 0 in the options yields the base's interval; over the defaults that is 300000. |
| Service.LoggingOverrideIgnored | src/services/signalr.ts:64 | A log level in the options that differs from the base's never reaches the merged configuration. |
| Service.MergeIdempotent | src/services/signalr.ts:58-73 | Merging the same options over the merged configuration again changes nothing. |
| Service.SignalR.constructor | src/services/signalr.ts:14-20 | The factory keeps the base configuration it is given. |
| Service.SignalR.CreateConnection | src/services/signalr.ts:22-38 | The result is a new wrapper whose configuration is the merge of the options over the base (absent options count as `{}`). Its hub is built from the merged url, HTTP options and log level. The hub holds exactly the `noOp` registration and no calls. The registry and all logs are empty, and the registry invariant holds. |
| Service.SignalR.Connect | src/services/signalr.ts:40-42 | The result is a new connection with the merged configuration. Its hub is built from the merged url, HTTP options and log level, holds exactly the `noOp` registration and has one start call. The registry and the delivery log are empty. Its first status is connecting and its second is connected or disconnected, following the start outcome. On success the error log and the zone-run log are empty and the promise resolves with the connection. On failure the error log holds exactly that error, the one zone run is that error on the errors flag's path, and the promise rejects with the prefixed message. |
| AspNetSignalR.HubConnection.Off | src/services/connection/signalr.connection.ts:116 | `off(event, callback)` splices the hub's handler list at the first index holding that registration, when there is one; otherwise the hub is unchanged. The order of the other handlers is kept, and exactly one copy of the registration leaves the multiset. |
| AspNetSignalR.RemoveFirstSplits | src/services/connection/signalr.connection.ts:116 | Removing the first occurrence of `x` is the splice at `indexOf(x)`: the sequence before that index followed by the sequence after it; with `indexOf` at -1 nothing changes. |
| AspNetSignalR.RemoveFirstMultiset | src/services/connection/signalr.connection.ts:116 | Removing the first occurrence of `x` from a sequence takes exactly one copy of `x` out of its multiset. |
| Connection.OnCloseStatus | src/services/connection/signalr.connection.ts:180-191 | A close payload with an own `newState` gives a status built from that value, and only such a payload does. A falsy payload gives disconnected. The result is disconnected exactly when the payload is falsy, or has a `message` and no `newState`. The result is null exactly for a truthy payload with neither property. |
| Connection.DeliveredIffListening | src/services/connection/signalr.connection.ts:157-166 | When the server invokes an event, a listener receives something if and only if a callback forwarding to it is registered under that event. |
| Connection.NoForwardersNoDelivery | src/services/connection/signalr.connection.ts:115-119 | With no forwarding callback registered under an event, an inbound invocation of that event delivers nothing. |
| Connection.DispatchConcat | src/services/connection/signalr.connection.ts:159 | Registrations are served in order: dispatching over two runs of handlers gives the first run's deliveries, then the second's. |
| Connection.RegsCount | src/services/connection/signalr.connection.ts:115-117 | The registrations that `stopListening` hands to `off` list each stored callback under the listener's event, as often as it is stored, and nothing under any other event. |
| Connection.StopListeningKeepsRegistry | src/services/connection/signalr.connection.ts:111-119 | Removing an event's stored callbacks from the hub and emptying that entry keeps every other entry registered exactly once. None of those callbacks stays registered under the event. Handlers that are not forwarding callbacks keep their counts. |
| Connection.StopListeningOutcome | src/services/connection/signalr.connection.ts:111-119 | Given the handlers left by the `off` loop, the emptied registry and those handlers satisfy the class invariant. The handlers are the old ones with the entry's registrations filtered out in order, the event reaches no listener through them, and every non-forwarding handler survives. |
| Connection.RemovalKeepsOtherEntries | src/services/connection/signalr.connection.ts:115-119 | Each callback stored under another event stays registered exactly once. |
| Connection.RemovalClearsEntry | src/services/connection/signalr.connection.ts:115-117 | No callback stored under the event stays registered under it. |
| Connection.RemovalKeepsListed | src/services/connection/signalr.connection.ts:115-119 | Every forwarding callback left on the hub is still stored in the emptied registry under its event. |
| Connection.RemovalKeepsNonForwarding | src/services/connection/signalr.connection.ts:115-117 | The `noOp` handler and any other non-forwarding handler are untouched. |
| Connection.OffAll | src/services/connection/signalr.connection.ts:115-117 | Calling `off` for each stored callback in turn removes exactly one registration per callback, as a multiset difference. When each of those registrations is on the hub at most once, the result is the original handler list with them filtered out and the rest in their original order. The hub's url, options, log level and call log are unchanged. |
| Connection.DropMembers | src/services/connection/signalr.connection.ts:115-117 | A handler survives the filter exactly when it is not a registration of one of the removed callbacks under the event. |
| Connection.OffAfterDrop | src/services/connection/signalr.connection.ts:115-117 | When a registration is on the hub at most once, `off` of it after filtering out some callbacks equals filtering out those callbacks and it together. |
| Connection.DropKeepsOtherEvents | src/services/connection/signalr.connection.ts:115-117 | Taking registrations off under one event does not change what any other event delivers, nor in which order. |
| Connection.SilentWhenEntryEmpty | src/services/connection/signalr.connection.ts:119 | With every forwarding callback on the hub stored in the registry, an empty entry for an event means an inbound invocation of it delivers nothing. |
| Connection.SignalRConnection.constructor | src/services/connection/signalr.connection.ts:21-28 | The wrapper keeps the hub and configuration it is given. It starts with an empty registry and empty logs, and satisfies the class invariant. |
| Connection.SignalRConnection.Run | src/services/connection/signalr.connection.ts:218-224 | Each call runs its action exactly once, on the path the flag selects. |
| Connection.SignalRConnection.Start | src/services/connection/signalr.connection.ts:38-56 | Start appends connecting and calls the hub's `start`. On success it appends connected, leaves the error log as it was and resolves with the wrapper. On failure it appends disconnected and emits the error exactly once through `run` with the errors flag. It then rejects with the prefixed message. |
| Connection.SignalRConnection.Stop | src/services/connection/signalr.connection.ts:58-61 | Every call appends disconnected, with no already-stopped guard, and then calls the hub's `stop`. |
| Connection.SignalRConnection.Invoke | src/services/connection/signalr.connection.ts:63-83 | A null method name throws and leaves the hub alone; an empty name is passed on. Otherwise the hub is invoked with the name and parameters. The result or error comes back unchanged, and the status log is not touched. |
| Connection.SignalRConnection.SetListener | src/services/connection/signalr.connection.ts:157-166 | SetListener builds a new closure that is not yet on the hub and registers it under the listener's event. It appends the closure to that event's entry (created when absent) and leaves every other entry unchanged. The registry invariant holds afterwards. |
| Connection.SignalRConnection.Listen | src/services/connection/signalr.connection.ts:85-103 | A null listener throws and changes nothing. Otherwise the call registers a first-argument closure, as `SetListener` does. |
| Connection.SignalRConnection.ListenFor | src/services/connection/signalr.connection.ts:122-132 | A null or empty event name throws and leaves the registry and hub as they were. Otherwise the call returns a new listener for the event with a first-argument closure registered. |
| Connection.SignalRConnection.ListenForRaw | src/services/connection/signalr.connection.ts:134-155 | Like `ListenFor`, but the closure forwards the whole argument list. |
| Connection.SignalRConnection.StopListening | src/services/connection/signalr.connection.ts:105-120 | A null listener throws and changes nothing. Otherwise the hub's handlers become the old ones with every registration of the callbacks stored under the listener's event name filtered out, whichever listener each belongs to, and the rest kept in order. The entry is present and empty and other entries are unchanged. That event then reaches no listener at all, and non-forwarding handlers such as `noOp` stay. |
| Connection.SignalRConnection.ClearEntry | src/services/connection/signalr.connection.ts:111-119 | The non-null branch of `stopListening`, with the same effect on the hub, the registry and the class invariant. |
| Connection.SignalRConnection.Receive | src/services/connection/signalr.connection.ts:90-100 | An inbound event appends exactly the dispatch of its arguments to the listeners: one delivery per forwarding handler under the name, in registration order. Each delivery goes through `run` with the events flag. |
| Connection.SignalRConnection.OnHubClosed | src/services/connection/signalr.connection.ts:180-191 | A close notification appends the status its payload maps to, through `run` with the status-change flag. |
| Scenarios.TwoListenersOnOneEvent | src/services/connection/signalr.connection.ts:122-132 | With two listeners for "foo" on a new connection, one inbound "foo" reaches both, in the order they were attached. |
| Scenarios.StopListeningIsEventScoped | src/services/connection/signalr.connection.ts:105-120 | Two listeners on "foo" both receive an inbound "foo". After `stopListening` with only the first, the next "foo" reaches neither. |
| Scenarios.StopListeningKeepsOtherEvents | src/services/connection/signalr.connection.ts:105-120 | With listeners a on "x", b on "y" and c on "x", after `stopListening(b)` an inbound "x" still reaches a and then c. |
| Scenarios.RawPayloads | src/services/connection/signalr.connection.ts:141-151 | A raw listener receives `(1, "a", true)` as the list `[1, "a", true]`, and no arguments as `[]`. |
| Scenarios.FirstArgumentPayloads | src/services/connection/signalr.connection.ts:90-100 | A listener receives `(42)` as `42`, and no arguments as null. |
| Scenarios.EventZone | src/services/connection/signalr.connection.ts:99 | An inbound event's delivery takes the path of the merged `executeEventsInZone` flag. |
| Scenarios.EventZoneRouting | src/services/signalr.ts:68 | A base that turns `executeEventsInZone` off sends events outside the zone. Over the defaults they stay inside even when the options pass `false`. |
| Scenarios.StopTwice | src/services/connection/signalr.connection.ts:58-61 | Stopping twice emits disconnected twice and calls the hub's `stop` twice. |

## Left out

- Asynchrony is not modelled. Promise scheduling is replaced by explicit outcomes, so each method settles in the same step in which it calls the hub. The rxjs subjects' multicast and subscription behaviour is replaced by append-only logs.
- `NgZone` is not modelled beyond the path each action takes (`runs`).
- `log`, `console.log` and `logConfiguration` are console output only and are not modelled.
- `onBroadcastEventReceived` is private and never called, so it is not modelled.
- The hub library itself is not part of this model; it is represented by the value described above. Its transports, negotiation and network traffic are left out, and so is its own behaviour on registration: lower-casing handler names, ignoring empty names and refusing a duplicate registration of the same closure. Duplicate registrations cannot arise from the wrapper anyway, because every closure it builds is new.
- The hub library's own `onclose` registration is not recorded. The handler the constructor wires to it is the method `SignalRConnection.OnHubClosed`.
- Connection.SignalRConnection.Start: only rejections carrying an `Error` with a `message` are modelled. The message of a rejection with some other value is not represented.
- JavaScript numbers are modelled as integers: no fractions, NaN or infinities.
- Event names are keys of a plain JavaScript object in the source, so a name such as `constructor`, `toString`, `hasOwnProperty` or `__proto__` reads an inherited member rather than an absent entry. The registry here is a map with no inherited keys, so that behaviour is not modelled.
- The hub builder's own argument checks (`withUrl` refuses a null or empty url) are not modelled: `Build` accepts any url. The scenarios give their factories a url.
- Connection.SignalRConnection.constructor: requires the hub to hold none of the wrapper's forwarding callbacks. Those closures cannot exist before the wrapper does, and one hub shared by two wrappers is not modelled.
- Connection.ConvertTransports: private and never called in the source; it is kept as a definition and nothing is proved about it.
- The `url` and `hubName` fields read an absent option and a `null` one alike, as both are falsy for `merge`.
- `connection.statuses.ts`, `connection.transports.ts`, `connection.status.ts` and `broadcast.event.listener.ts` are not part of this model. Statuses are named values, and the automatic transport is known by its name "auto". A listener is a handle with an event name; its own argument checks and its subject are not modelled, and the values it receives are the wrapper's `deliveries`.
- `stopListening` first creates an absent entry and then sets it to empty. The model reads an absent entry as empty and sets the entry once at the end. The resulting registry is the same.
- The Angular module wiring and the bundler configuration are not modelled.
