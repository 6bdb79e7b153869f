/**
 * `WebSocketClient`: one socket at most, reconnected forever at a fixed
 * interval, gating every outbound frame on the socket being OPEN, and turning
 * socket callbacks into named events for the registered listeners.
 *
 * The socket is its `readyState` alone. Everything the socket is asked to send
 * is recorded in `sent`, every listener call in `invoked`. The browser's side
 * (the socket opening, a message arriving, the socket closing, a retry timer
 * running out) is driven from outside through `OnOpen`, `OnMessage`, `OnClose`
 * and `RetryTimerFired`.
 */
module Client {
  import opened Wrappers
  import opened ControlFrames
  import opened Endpoint
  import opened Listeners

  /** The states of a WebSocket's `readyState`. */
  datatype ReadyState = Connecting | Open | Closing | Closed

  /** The reconnect delay, in milliseconds, when the caller gives none. */
  const DefaultRetryInterval: int := 2000

  /** `connect()` makes a new socket only when there is none or the current one is CLOSED. */
  predicate MayConnect(ws: Option<ReadyState>)
  {
    ws.None? || ws == Some(Closed)
  }

  /** Outbound frames reach the socket only while it exists and is OPEN. */
  predicate IsOpen(ws: Option<ReadyState>)
  {
    ws == Some(Open)
  }

  /** What `close()` does to the socket's state: CONNECTING and OPEN start closing; otherwise nothing. */
  function CloseState(ws: Option<ReadyState>): (r: Option<ReadyState>)
    ensures r.Some? <==> ws.Some?
    ensures r != Some(Open) && r != Some(Connecting)
    ensures ws.Some? && ws.value in {Connecting, Open} ==> r == Some(Closing)
    ensures ws.Some? && ws.value in {Closing, Closed} ==> r == ws
    ensures MayConnect(r) <==> MayConnect(ws)
  {
    match ws
    case Some(Connecting) => Some(Closing)
    case Some(Open) => Some(Closing)
    case _ => ws
  }

  class WebSocketClient {
    /** The socket, or None before the first `connect()`. */
    var ws: Option<ReadyState>
    const url: string
    const retryInterval: int
    const token: string
    var eventListeners: Registry

    /** Every frame handed to a socket's `send`, over all sockets, in order. */
    var sent: seq<string>
    /** Every listener call, in order. */
    var invoked: seq<Invocation>
    /** Reconnect timers scheduled by a close and not yet run out; each is `retryInterval` long. */
    var pendingRetries: nat
    /** How many sockets this client has made. */
    var created: nat

    /** `new WebSocketClient(org, service, token, retryInterval = 2000)`: stores the URL and connects. */
    constructor (org: string, service: string, token: string, retryInterval: int := DefaultRetryInterval)
      ensures url == ConnectUrl(org, service, token)
      ensures this.retryInterval == retryInterval && this.token == token
      ensures eventListeners == map[]
      ensures ws == Some(Connecting) && created == 1
      ensures sent == [] && invoked == [] && pendingRetries == 0
    {
      url := ConnectUrl(org, service, token);
      this.retryInterval := retryInterval;
      this.token := token;
      eventListeners := map[];
      ws := None;
      sent := [];
      invoked := [];
      pendingRetries := 0;
      created := 0;
      new;
      Connect();
    }

    /** `connect()`: a new socket in CONNECTING only when there is none or it is CLOSED; otherwise nothing. */
    method Connect()
      modifies this`ws, this`created
      ensures MayConnect(old(ws)) ==> ws == Some(Connecting) && created == old(created) + 1
      ensures !MayConnect(old(ws)) ==> ws == old(ws) && created == old(created)
    {
      if MayConnect(ws) {
        ws := Some(Connecting);
        created := created + 1;
      }
    }

    /** The socket's `onopen` handler: the socket is OPEN, and `open` is emitted with null. */
    method OnOpen()
      requires ws == Some(Connecting)
      modifies this`ws, this`invoked
      ensures ws == Some(Open)
      ensures invoked == old(invoked) + Dispatch(ListenersOf(eventListeners, "open"), Null)
    {
      ws := Some(Open);
      Emit("open", Null);
    }

    /** The socket's `onmessage` handler: `message` is emitted with the raw data, undecoded. */
    method OnMessage(data: string)
      requires ws == Some(Open)
      modifies this`invoked
      ensures invoked == old(invoked) + Dispatch(ListenersOf(eventListeners, "message"), Raw(data))
    {
      Emit("message", Raw(data));
    }

    /** The socket's `onclose` handler: the socket is CLOSED, `close` is emitted with null, and one retry is scheduled. */
    method OnClose()
      requires ws.Some? && ws.value != Closed
      modifies this`ws, this`invoked, this`pendingRetries
      ensures ws == Some(Closed)
      ensures invoked == old(invoked) + Dispatch(ListenersOf(eventListeners, "close"), Null)
      ensures pendingRetries == old(pendingRetries) + 1
    {
      ws := Some(Closed);
      Emit("close", Null);
      pendingRetries := pendingRetries + 1;
    }

    /** A scheduled retry runs out: it calls `connect()`, whatever has happened since. */
    method RetryTimerFired()
      requires pendingRetries > 0
      modifies this`ws, this`created, this`pendingRetries
      ensures pendingRetries == old(pendingRetries) - 1
      ensures MayConnect(old(ws)) ==> ws == Some(Connecting) && created == old(created) + 1
      ensures !MayConnect(old(ws)) ==> ws == old(ws) && created == old(created)
    {
      pendingRetries := pendingRetries - 1;
      Connect();
    }

    /** `send(message)`: the message goes to the socket when it is OPEN and is dropped otherwise. */
    method Send(message: string)
      modifies this`sent
      ensures IsOpen(old(ws)) ==> sent == old(sent) + [message]
      ensures !IsOpen(old(ws)) ==> sent == old(sent)
    {
      if IsOpen(ws) {
        sent := sent + [message];
      }
    }

    /** `subscribe(channel)`: one join frame when OPEN, nothing otherwise. */
    method Subscribe(channel: string)
      modifies this`sent
      ensures IsOpen(old(ws)) ==> sent == old(sent) + [JoinFrame(channel)]
      ensures !IsOpen(old(ws)) ==> sent == old(sent)
    {
      if IsOpen(ws) {
        sent := sent + [JoinFrame(channel)];
      }
    }

    /** `unsubscribe(channel)`: one leave frame when OPEN, nothing otherwise. */
    method Unsubscribe(channel: string)
      modifies this`sent
      ensures IsOpen(old(ws)) ==> sent == old(sent) + [LeaveFrame(channel)]
      ensures !IsOpen(old(ws)) ==> sent == old(sent)
    {
      if IsOpen(ws) {
        sent := sent + [LeaveFrame(channel)];
      }
    }

    /** `close()`: asks the socket, if any, to close; pending retries are not cancelled. */
    method Close()
      modifies this`ws
      ensures ws == CloseState(old(ws))
    {
      ws := CloseState(ws);
    }

    /** `on(event, callback)`: appends the callback to the event's list. */
    method On(event: string, callback: ListenerId)
      modifies this`eventListeners
      ensures eventListeners == Register(old(eventListeners), event, callback)
    {
      eventListeners := Register(eventListeners, event, callback);
    }

    /** `emit(event, data)`: calls the event's listeners in order with `data`. */
    method Emit(event: string, data: Payload)
      modifies this`invoked
      ensures invoked == old(invoked) + Dispatch(ListenersOf(eventListeners, event), data)
    {
      var listeners := ListenersOf(eventListeners, event);
      for i := 0 to |listeners|
        invariant invoked == old(invoked) + Dispatch(listeners[..i], data)
      {
        DispatchAppend(listeners[..i], listeners[i], data);
        assert listeners[..i + 1] == listeners[..i] + [listeners[i]];
        invoked := invoked + [Invocation(listeners[i], data)];
      }
      assert listeners[..|listeners|] == listeners;
    }
  }

  // ---------------------------------------------------------------------------
  // Runs of a client, from construction
  // ---------------------------------------------------------------------------

  /** A message sent before the socket opens is dropped, not delivered once it opens. */
  method SendBeforeOpen(org: string, service: string, token: string, early: string, late: string)
    returns (frames: seq<string>)
    ensures frames == [late]
  {
    var c := new WebSocketClient(org, service, token);
    c.Send(early);
    c.OnOpen();
    c.Send(late);
    frames := c.sent;
  }

  /** After a close and the retry, the client has a second socket and does not join the channel again. */
  method NoResubscribeOnReconnect(org: string, service: string, token: string, channel: string)
    returns (frames: seq<string>, sockets: nat)
    ensures frames == [JoinFrame(channel)]
    ensures sockets == 2
  {
    var c := new WebSocketClient(org, service, token);
    c.OnOpen();
    c.Subscribe(channel);
    c.OnClose();
    c.RetryTimerFired();
    c.OnOpen();
    frames, sockets := c.sent, c.created;
  }

  /** Listeners survive a reconnect: an `open` listener is called once per opened socket. */
  method OpenListenerPerConnection(org: string, service: string, token: string, cb: ListenerId)
    returns (calls: seq<Invocation>)
    ensures calls == [Invocation(cb, Null), Invocation(cb, Null)]
  {
    var c := new WebSocketClient(org, service, token);
    c.On("open", cb);
    c.OnOpen();
    c.OnClose();
    c.RetryTimerFired();
    c.Connect();
    c.OnOpen();
    calls := c.invoked;
  }

  /** `close()` does not stop the client: the close still schedules a retry, and the retry connects again. */
  method CloseDoesNotStopRetry(org: string, service: string, token: string)
    returns (state: Option<ReadyState>, sockets: nat)
    ensures state == Some(Connecting) && sockets == 2
  {
    var c := new WebSocketClient(org, service, token);
    c.OnOpen();
    c.Close();
    c.Connect();
    c.OnClose();
    c.RetryTimerFired();
    state, sockets := c.ws, c.created;
  }

  /** An inbound frame reaches a `message` listener exactly as it arrived. */
  method MessageDeliveredRaw(org: string, service: string, token: string, cb: ListenerId, frame: string)
    returns (calls: seq<Invocation>)
    ensures calls == [Invocation(cb, Raw(frame))]
  {
    var c := new WebSocketClient(org, service, token);
    c.On("message", cb);
    c.OnOpen();
    c.OnMessage(frame);
    calls := c.invoked;
  }
}
