/**
 * The listener registry of the client: a dictionary from event name to the
 * ordered list of callbacks registered for it. Callbacks are opaque ids; what
 * a callback does is not part of the model, only that it was invoked, in which
 * order and with which argument.
 */
module Listeners {
  type ListenerId = nat

  /** The argument an event passes to its listeners: `null`, or the raw data of an inbound frame. */
  datatype Payload = Null | Raw(data: string)

  /** One call `listener(data)`. */
  datatype Invocation = Invocation(listener: ListenerId, data: Payload)

  type Registry = map<string, seq<ListenerId>>

  /** The listeners of `event`; an event nobody registered for has none. */
  function ListenersOf(m: Registry, event: string): (listeners: seq<ListenerId>)
  {
    if event in m then m[event] else []
  }

  /**
   * `on(event, cb)`: creates the list on first use and appends `cb` to it.
   * The new entry ends in `cb` after the old entries in their order, and every
   * other event keeps its list.
   */
  function Register(m: Registry, event: string, cb: ListenerId): (r: Registry)
    ensures r.Keys == m.Keys + {event}
    ensures |ListenersOf(r, event)| == |ListenersOf(m, event)| + 1
    ensures ListenersOf(r, event)[..|ListenersOf(m, event)|] == ListenersOf(m, event)
    ensures ListenersOf(r, event)[|ListenersOf(m, event)|] == cb
    ensures event !in m ==> r[event] == [cb]
    ensures forall e :: e != event ==> ListenersOf(r, e) == ListenersOf(m, e)
  {
    m[event := ListenersOf(m, event) + [cb]]
  }

  /** Registers `cbs` for `event`, one `on` call after another. */
  function RegisterAll(m: Registry, event: string, cbs: seq<ListenerId>): (r: Registry)
    decreases |cbs|
  {
    if cbs == [] then m else RegisterAll(Register(m, event, cbs[0]), event, cbs[1..])
  }

  /** `emit(event, data)` over a list: each listener once, in list order, with the same data. */
  function Dispatch(listeners: seq<ListenerId>, data: Payload): (calls: seq<Invocation>)
  {
    if listeners == [] then [] else [Invocation(listeners[0], data)] + Dispatch(listeners[1..], data)
  }

  // ---------------------------------------------------------------------------
  // Properties
  // ---------------------------------------------------------------------------

  /** The k-th invocation of an emit is the k-th listener, called with the emitted data, and there are no others. */
  lemma {:induction false} DispatchAt(listeners: seq<ListenerId>, data: Payload)
    ensures |Dispatch(listeners, data)| == |listeners|
    ensures forall k :: 0 <= k < |listeners| ==> Dispatch(listeners, data)[k] == Invocation(listeners[k], data)
  {
    if listeners != [] {
      DispatchAt(listeners[1..], data);
    }
  }

  /** Dispatching to a list with one more listener at the end makes one more call at the end. */
  lemma {:induction false} DispatchAppend(listeners: seq<ListenerId>, cb: ListenerId, data: Payload)
    ensures Dispatch(listeners + [cb], data) == Dispatch(listeners, data) + [Invocation(cb, data)]
  {
    if listeners != [] {
      assert (listeners + [cb])[1..] == listeners[1..] + [cb];
      DispatchAppend(listeners[1..], cb, data);
    }
  }

  /** A sequence of `on` calls leaves the callbacks at the end of the list in the order they were registered. */
  lemma {:induction false} RegisterAllOrder(m: Registry, event: string, cbs: seq<ListenerId>)
    ensures ListenersOf(RegisterAll(m, event, cbs), event) == ListenersOf(m, event) + cbs
    ensures forall e :: e != event ==> ListenersOf(RegisterAll(m, event, cbs), e) == ListenersOf(m, e)
    decreases |cbs|
  {
    if cbs != [] {
      var m' := Register(m, event, cbs[0]);
      RegisterAllOrder(m', event, cbs[1..]);
      assert ListenersOf(m', event) == ListenersOf(m, event) + [cbs[0]];
      assert [cbs[0]] + cbs[1..] == cbs;
    }
  }

  /** After `on(event, cb)`, emitting `event` calls every earlier listener as before and then `cb`. */
  lemma EmitAfterRegister(m: Registry, event: string, cb: ListenerId, data: Payload)
    ensures Dispatch(ListenersOf(Register(m, event, cb), event), data)
         == Dispatch(ListenersOf(m, event), data) + [Invocation(cb, data)]
  {
    assert ListenersOf(Register(m, event, cb), event) == ListenersOf(m, event) + [cb];
    DispatchAppend(ListenersOf(m, event), cb, data);
  }

  // ---------------------------------------------------------------------------
  // `on` as written: the registry is a plain object literal
  // ---------------------------------------------------------------------------

  /**
   * Property names an object literal `{}` inherits from `Object.prototype`.
   * Looking any of them up on the registry gives a truthy value that is not an array.
   */
  const InheritedNames: set<string> := {
    "constructor", "hasOwnProperty", "isPrototypeOf", "propertyIsEnumerable",
    "toLocaleString", "toString", "valueOf", "__proto__",
    "__defineGetter__", "__defineSetter__", "__lookupGetter__", "__lookupSetter__"
  }

  datatype OnOutcome = Registered(registry: Registry) | TypeError

  /**
   * `on(event, cb)` as the code runs it: the "no list yet" test is a truthiness
   * test on a property lookup, so for an inherited name it passes, and the
   * following `push` is not a function of the inherited value: a TypeError.
   */
  function OnAsWritten(m: Registry, event: string, cb: ListenerId): (r: OnOutcome)
    ensures r.TypeError? <==> event !in m && event in InheritedNames
    ensures r.Registered? ==> r.registry == Register(m, event, cb)
  {
    if event in m then Registered(m[event := m[event] + [cb]])
    else if event in InheritedNames then TypeError
    else Registered(m[event := [cb]])
  }

  /** The first listener for "toString" is not registered: `on` throws instead. */
  lemma OnToStringThrows(cb: ListenerId)
    ensures OnAsWritten(map[], "toString", cb) == TypeError
    ensures ListenersOf(Register(map[], "toString", cb), "toString") == [cb]
  {
  }
}
