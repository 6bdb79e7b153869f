# rtlayer-client: WebSocketClient, modelled in Dafny

This project models `WebSocketClient` (`src/index.ts`), the whole of the
rtlayer client library: a small state machine around one browser WebSocket
that

- builds its endpoint URL `wss://ws.rtlayer.com/<org>/<service>/?token=<token>`
  and connects on construction;
- makes a new socket in `connect()` only when it has none or the current one
  is CLOSED;
- turns the socket's callbacks into named events: `open` with null, `message`
  with the raw inbound data, `close` with null followed by one reconnect
  scheduled `retryInterval` milliseconds later (2000 by default), forever (unless a `close`
  listener throws, see Left out), with no cap and no backoff;
- sends a raw message, a join frame `{"action":"join","id":<channel>}` or a
  leave frame `{"action":"leave","id":<channel>}` only while the socket is
  OPEN, and otherwise drops it silently (nothing is queued);
- keeps a dictionary from event name to an ordered list of callbacks: `on`
  appends, `emit` calls the list in order.

Files:

- `wrappers.dfy` — `Option`.
- `control_frames.dfy` — the two control frames as `JSON.stringify` writes
  them (string quoting by the QuoteJSONString rules of the ECMAScript
  specification), a decoder for that object shape, and the round trip.
- `endpoint.dfy` — the connection URL, a parser that recovers its parts, and
  the collision that the unencoded interpolation allows.
- `listeners.dfy` — the listener registry as values: `Register` (`on`),
  `Dispatch` (`emit`) and their properties; `on` as the code runs it on a
  plain object (see Findings).
- `client.dfy` — the class `WebSocketClient`, whose methods mutate the socket
  state, the registry, the log of sent frames and the log of listener calls,
  each proved against the functions above; and five runs of a client from
  construction that state the client-level behaviour (drop instead of
  buffer, no resubscription, listeners kept across reconnects, `close()` not
  stopping the retry, raw inbound data).

The socket is its `readyState` (`None` while there is no socket). The
browser's side of the socket is driven from outside through the methods
`OnOpen`, `OnMessage`, `OnClose` and `RetryTimerFired`; their `requires`
clauses say in which socket state the browser runs each callback. Callbacks
are opaque ids; a call is recorded as `(listener, data)`.

The code has no outbound queue (a frame sent while the socket is not OPEN
is dropped), no resubscription of channels after a reconnect, no `'*'`
wildcard, no JSON decoding or channel routing of inbound frames (only
`message` is emitted, with the raw data), no listener removal and no
per-(organisation, service) client cache; the model adds none of them. The
default retry interval is 2000 ms, and `connect()` is a no-op while the
socket is CLOSING as well as while it is CONNECTING or OPEN.

## Model

| member | source | states |
|---|---|---|
| Client.WebSocketClient.constructor | src/index.ts:10-15 | the URL is `ConnectUrl(org, service, token)`, the retry interval is the argument (2000 when omitted), the registry is empty, and exactly one socket exists, CONNECTING |
| Client.WebSocketClient.Connect | src/index.ts:17-19 | a new CONNECTING socket is made iff there is none or it is CLOSED; in CONNECTING, OPEN or CLOSING nothing changes (no second socket, hence no extra `open`); the registry and logs are untouched |
| Client.WebSocketClient.OnOpen | src/index.ts:20-22 | the socket becomes OPEN and each `open` listener is called once, in registration order, with null |
| Client.WebSocketClient.OnMessage | src/index.ts:23-25 | each `message` listener is called once, in order, with the inbound data unchanged; no other event is emitted |
| Client.WebSocketClient.OnClose | src/index.ts:26-31 | the socket is CLOSED, each `close` listener is called once with null, and exactly one more retry is pending |
| Client.WebSocketClient.RetryTimerFired | src/index.ts:28-30 | one pending retry is consumed and `connect()` runs with its usual gating |
| Client.WebSocketClient.Send | src/index.ts:35-39 | the log gains exactly the message iff the socket exists and is OPEN; otherwise the log is unchanged and nothing is kept |
| Client.WebSocketClient.Subscribe | src/index.ts:41-48 | the log gains exactly one join frame for the channel iff OPEN, nothing otherwise |
| Client.WebSocketClient.Unsubscribe | src/index.ts:49-57 | the log gains exactly one leave frame for the channel iff OPEN, nothing otherwise |
| Client.WebSocketClient.Close | src/index.ts:59-63 | a CONNECTING or OPEN socket goes to CLOSING, any other state is kept; registry, logs and pending retries are untouched |
| Client.WebSocketClient.On | src/index.ts:65-70 | the registry becomes `Register(old, event, callback)` |
| Client.WebSocketClient.Emit | src/index.ts:72-79 | the call log gains `Dispatch` of the event's list: each listener once, in order, with the same data; nothing for an event without listeners |
| Client.CloseState | src/index.ts:59-63 | `close()` sends a CONNECTING or OPEN socket to CLOSING and leaves CLOSING, CLOSED or no socket as it is; it never makes an immediate `connect()` possible where it was not (`MayConnect` is unchanged) |
| Client.SendBeforeOpen | src/index.ts:35-39 | a message sent while CONNECTING is never delivered, also not after the socket opens; one sent after opening is |
| Client.NoResubscribeOnReconnect | src/index.ts:17-31 | after open, subscribe, close and the retry, a second socket exists and only the one original join frame was ever sent |
| Client.OpenListenerPerConnection | src/index.ts:17-22 | an `open` listener registered once is called once per opened socket, and a `connect()` while CONNECTING adds no call |
| Client.CloseDoesNotStopRetry | src/index.ts:26-30 | after `close()` the close event still schedules a retry, and the retry makes a new CONNECTING socket |
| Client.MessageDeliveredRaw | src/index.ts:23-25 | a `message` listener receives the inbound frame exactly as it arrived, once |
| Listeners.Register | src/index.ts:65-70 | the event's list is the old list (empty on first use) followed by the callback; every other event keeps its list; the keys gain exactly the event |
| Listeners.RegisterAllOrder | src/index.ts:65-70 | a sequence of `on` calls for one event leaves the callbacks at the end of its list in call order, and other events unchanged |
| Listeners.DispatchAt | src/index.ts:72-79 | an emit makes exactly as many calls as there are listeners, the k-th call being the k-th listener with the emitted data |
| Listeners.DispatchAppend | src/index.ts:72-79 | one more listener at the end of the list means one more call, after all the others |
| Listeners.EmitAfterRegister | src/index.ts:65-79 | after `on(event, cb)`, emitting `event` calls the earlier listeners as before and then `cb` |
| Listeners.OnAsWritten | src/index.ts:65-70 | `on` on a plain object throws iff the event is not yet registered and is an inherited `Object.prototype` name; otherwise it registers as `Register` does |
| Listeners.OnToStringThrows | src/index.ts:66-69 | the first `on("toString", cb)` throws where the intended registry would hold `[cb]` |
| ControlFrames.UnescapeEscape | src/index.ts:43-46 | reading back a string quoted by `JSON.stringify` gives the string and leaves what follows the closing quote |
| ControlFrames.ParseFrame | src/index.ts:41-56 | each join or leave frame decodes to its action and the exact channel name |
| ControlFrames.FrameInjective | src/index.ts:41-56 | two control frames are equal iff their actions and channel names are |
| Endpoint.ParseConnectUrl | src/index.ts:11 | the URL gives back organisation, service and token when the two names contain no '/' |
| Endpoint.SlashMovesBoundary | src/index.ts:11 | the parts are not encoded: moving a '/' from the organisation into the service leaves the URL unchanged |
| Endpoint.DistinctDestinationsShareUrl | src/index.ts:11 | the destinations ("a/b", "c") and ("a", "b/c") are different and get the same URL |

## Findings

| source | as written | input that shows it | evidently intended | confidence | as-written member | corrected member |
|---|---|---|---|---|---|---|
| src/index.ts:66-69 | `on` tests for an existing list with `!this.eventListeners[event]` on an object literal, so an inherited name such as `toString` passes the test and `push` on the inherited function throws a TypeError | `on("toString", cb)` on a new client | `cb` becomes the first listener of `toString` | medium, not executed | Listeners.OnAsWritten | Listeners.Register |

The rest of the model (`WebSocketClient.On`) uses the corrected `Register`,
which treats the registry as a true dictionary.

## Left out

- The real WebSocket and the network: the socket is an abstract `readyState`, and the browser's state changes are the four handler methods; `bufferedAmount` and transmission after `send` are not modelled.
- Timers and the event loop: a scheduled reconnect is a count of pending retries, and `RetryTimerFired` is the moment one runs out; the delay `retryInterval` is stored, not simulated.
- Handlers of a replaced socket: the model's handlers act on the current socket; a late event of an earlier socket is not modelled.
- What listeners do: they are opaque ids. A listener that calls `on`, `send` or `close` during an emit, or throws and so stops the rest of the emit, is not modelled; `Emit` reads the list once, whereas `for…of` would also reach a listener appended during the loop.
- OnClose: a `close` listener that throws also prevents the retry from being scheduled (src/index.ts:27-30), which ends the reconnect loop; `OnClose` always schedules one.
- A '#' in the organisation, service or token: the URL then has a fragment, and the WebSocket constructor throws a `SyntaxError`, so the client's constructor throws; the model's constructor always connects.
- Binary inbound data (`Blob`, `ArrayBuffer`): inbound data is a string.
- Lone UTF-16 surrogates in channel names, which `JSON.stringify` writes as `\u` escapes: strings here are sequences of Unicode scalar values, so they cannot occur.
- An absent token, which the template string renders as `undefined`: the token is a given string.
- General JSON decoding: `ParseControlFrame` reads only the fixed two-key shape the client writes, not general JSON.
