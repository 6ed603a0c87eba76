/**
 * The connection wrapper `SignalRConnection`: it owns one hub connection,
 * keeps a registry from event name to the callbacks it registered on the hub,
 * and turns hub notifications into emissions on its status, error and
 * listener streams, each routed through the zone runner.
 *
 * The streams are modelled as append-only logs held by the wrapper: the
 * status stream (`statuses`), the error stream (`errors`) and, for every
 * listener, the values it was given (`deliveries`, tagged with the listener).
 * The zone runner is modelled by `runs`, one record per action it executed,
 * saying which path (inside or outside the zone) the action took.
 */
module Connection {
  import opened Wrappers
  import opened Js
  import opened AspNetSignalR
  import opened Config

  /** A connection lifecycle state; `FromState` is one built from a close payload's `newState`. */
  datatype ConnectionStatus = Connecting | Connected | Disconnected | FromState(newState: Value)

  /** The two paths of the zone runner: `zone.run` and `zone.runOutsideAngular`. */
  datatype Zone = InsideZone | OutsideZone

  /** What an action passed to the runner emits. */
  datatype Emission = EventEmission | ErrorEmission | StatusEmission

  datatype RunRecord = RunRecord(emission: Emission, zone: Zone)

  /** How a callback turns the inbound arguments into the value a listener receives. */
  datatype Projection = FirstArgument | AllArguments

  /**
   * A handler registered on the hub. `Forward` is a callback built by `listen`
   * or `listenForRaw` for one listener; its `id` stands for the identity of
   * the closure, so two calls build two different callbacks. `NoOp` is the
   * empty handler the factory registers.
   */
  datatype Callback = NoOp | Forward(id: nat, projection: Projection, listener: BroadcastEventListener)

  /** `listener.next(value)`. */
  datatype Delivery = Delivery(listener: BroadcastEventListener, value: Value)

  /** The exception thrown for invalid arguments. */
  datatype ArgumentError = ArgumentError(message: string)

  const InvokeMethodNull := ArgumentError("SignalRConnection: Failed to invoke. Argument 'method' can not be null")
  const ListenerNull := ArgumentError("Failed to listen. Argument 'listener' can not be null")
  const EventEmpty := ArgumentError("Failed to listen. Argument 'event' can not be empty")

  /** The `Error` the hub's `start` rejects with. */
  datatype HubError = HubError(message: string)

  /** How the hub's asynchronous `start` settles. */
  datatype StartOutcome = Started | StartFailed(error: HubError)

  /** How the hub's asynchronous `invoke` settles. */
  datatype InvokeOutcome = Returned(result: Value) | Threw(error: Value)

  /** How a promise returned by the wrapper settles. */
  datatype Settled<+T, +E> = Resolved(value: T) | Rejected(reason: E)

  /** A named handle to a stream of values pushed for one server event. */
  class BroadcastEventListener {
    const event: string

    constructor(event: string)
      ensures this.event == event
    {
      this.event := event;
    }
  }

  /** The path `run(func, inZone)` takes. */
  function ZoneFor(inZone: bool): (z: Zone)
    ensures z == InsideZone <==> inZone
  {
    if inZone then InsideZone else OutsideZone
  }

  /**
   * What a callback hands to its listener: `listen` passes the first argument,
   * or null when there is none; `listenForRaw` passes the whole argument list
   * (so an empty list when there are no arguments).
   */
  function Project(projection: Projection, args: seq<Value>): (v: Value)
    ensures projection == FirstArgument ==> v == if |args| > 0 then args[0] else Null
    ensures projection == AllArguments ==> v.Arr? && v.items == args
  {
    match projection
    case FirstArgument => if |args| > 0 then args[0] else Null
    case AllArguments => Arr(args)
  }

  /**
   * The status emitted for a close notification with payload `change`: the
   * payload's own `newState` when it has one; disconnected when there is no
   * payload (any falsy value) or it carries a `message` (an error); null
   * (`None`) for any other payload.
   */
  function OnCloseStatus(change: Value): (s: Option<ConnectionStatus>)
    ensures HasOwnProperty(change, "newState") <==> s.Some? && s.value.FromState?
    ensures HasOwnProperty(change, "newState") ==> s.value.newState == change.props["newState"]
    ensures !Truthy(change) ==> s == Some(Disconnected)
    ensures s == Some(Disconnected) <==>
              !Truthy(change) || (HasOwnProperty(change, "message") && !HasOwnProperty(change, "newState"))
    ensures s == None <==>
              Truthy(change) && !HasOwnProperty(change, "newState") && !HasOwnProperty(change, "message")
  {
    if Truthy(change) && HasOwnProperty(change, "newState") then Some(FromState(change.props["newState"]))
    else if !Truthy(change) || HasOwnProperty(change, "message") then Some(Disconnected)
    else None
  }

  /** The transport names handed to the client: one name, or the names in fallback order. */
  function ConvertTransports(transports: TransportSetting): (r: Value)
    ensures transports.One? ==> r == Str(transports.transport.name)
    ensures transports.Many? ==>
              r.Arr? && |r.items| == |transports.transports| &&
              forall i :: 0 <= i < |r.items| ==> r.items[i] == Str(transports.transports[i].name)
  {
    match transports
    case One(t) => Str(t.name)
    case Many(ts) => Arr(seq(|ts|, i requires 0 <= i < |ts| => Str(ts[i].name)))
  }

  /** The rejection reason of a failed `start`; it ends with the hub error's message. */
  function ConnectFailureReason(error: HubError): (reason: string)
    ensures |reason| == |ConnectFailurePrefix| + |error.message|
    ensures reason[..|ConnectFailurePrefix|] == ConnectFailurePrefix
    ensures reason[|ConnectFailurePrefix|..] == error.message
  {
    ConnectFailurePrefix + error.message
  }

  const ConnectFailurePrefix := "Failed to connect. Error: "

  /** A callback registration that delivers to a listener. */
  predicate Forwards(r: Registration<Callback>, event: string) {
    r.event == event && r.callback.Forward?
  }

  /**
   * The deliveries the hub makes when the server invokes `event` with `args`:
   * every handler registered under that name is called in registration order,
   * and each forwarding callback delivers its projection of `args`.
   */
  function Dispatch(handlers: seq<Registration<Callback>>, event: string, args: seq<Value>): (ds: seq<Delivery>)
    ensures |ds| <= |handlers|
  {
    if handlers == [] then []
    else
      var last := handlers[|handlers| - 1];
      Dispatch(handlers[..|handlers| - 1], event, args) +
      if Forwards(last, event) then [Delivery(last.callback.listener, Project(last.callback.projection, args))] else []
  }

  /** One more handler adds at most its own delivery at the end. */
  lemma DispatchSnoc(handlers: seq<Registration<Callback>>, r: Registration<Callback>, event: string, args: seq<Value>)
    ensures Dispatch(handlers + [r], event, args) ==
              Dispatch(handlers, event, args) +
              if Forwards(r, event) then [Delivery(r.callback.listener, Project(r.callback.projection, args))] else []
  {
    assert (handlers + [r])[..|handlers|] == handlers;
  }

  /** `n` copies of `r`. */
  function Repeat(r: RunRecord, n: nat): (rs: seq<RunRecord>)
    ensures |rs| == n
    ensures forall i :: 0 <= i < n ==> rs[i] == r
  {
    if n == 0 then [] else Repeat(r, n - 1) + [r]
  }

  /** Does some handler under `event` forward to `listener`? */
  predicate ListensOn(handlers: seq<Registration<Callback>>, event: string, listener: BroadcastEventListener) {
    exists i :: 0 <= i < |handlers| && Forwards(handlers[i], event) && handlers[i].callback.listener == listener
  }

  /**
   * A listener receives something when `event` arrives exactly when some
   * handler registered under `event` forwards to it.
   */
  lemma {:induction false} DeliveredIffListening(
    handlers: seq<Registration<Callback>>, event: string, args: seq<Value>, listener: BroadcastEventListener)
    ensures (exists d :: d in Dispatch(handlers, event, args) && d.listener == listener) <==>
              ListensOn(handlers, event, listener)
  {
    if handlers != [] {
      var init, last := handlers[..|handlers| - 1], handlers[|handlers| - 1];
      var own := if Forwards(last, event) then [Delivery(last.callback.listener, Project(last.callback.projection, args))] else [];
      assert Dispatch(handlers, event, args) == Dispatch(init, event, args) + own;
      DeliveredIffListening(init, event, args, listener);
      if exists d :: d in Dispatch(handlers, event, args) && d.listener == listener {
        var d :| d in Dispatch(handlers, event, args) && d.listener == listener;
        if d in Dispatch(init, event, args) {
          var k :| 0 <= k < |init| && Forwards(init[k], event) && init[k].callback.listener == listener;
          assert handlers[k] == init[k];
        } else {
          assert Forwards(handlers[|handlers| - 1], event);
        }
      }
      if ListensOn(handlers, event, listener) {
        var k :| 0 <= k < |handlers| && Forwards(handlers[k], event) && handlers[k].callback.listener == listener;
        if k < |init| {
          assert init[k] == handlers[k];
          var d :| d in Dispatch(init, event, args) && d.listener == listener;
          assert d in Dispatch(handlers, event, args);
        } else {
          assert own[0] in Dispatch(handlers, event, args);
        }
      }
    }
  }

  /** With no forwarding callback registered under `event`, an inbound `event` delivers nothing. */
  lemma {:induction false} NoForwardersNoDelivery(handlers: seq<Registration<Callback>>, event: string, args: seq<Value>)
    requires forall r :: r in handlers ==> !Forwards(r, event)
    ensures Dispatch(handlers, event, args) == []
  {
    if handlers != [] {
      NoForwardersNoDelivery(handlers[..|handlers| - 1], event, args);
    }
  }

  /**
   * Dispatch over the handlers of `left` followed by those of `right`: the
   * deliveries of `left`, then those of `right`.
   */
  lemma {:induction false} DispatchConcat(
    left: seq<Registration<Callback>>, right: seq<Registration<Callback>>, event: string, args: seq<Value>)
    ensures Dispatch(left + right, event, args) == Dispatch(left, event, args) + Dispatch(right, event, args)
  {
    if right == [] {
      assert left + right == left;
    } else {
      var init := right[..|right| - 1];
      assert (left + right)[..|left + right| - 1] == left + init;
      DispatchConcat(left, init, event, args);
    }
  }

  /** The registrations `off` removes for `event`: one per stored callback. */
  function Regs(event: string, callbacks: seq<Callback>): (rs: seq<Registration<Callback>>)
    ensures |rs| == |callbacks|
  {
    if callbacks == [] then []
    else Regs(event, callbacks[..|callbacks| - 1]) + [Registration(event, callbacks[|callbacks| - 1])]
  }

  /** `Regs` of a prefix one longer adds that callback's registration (with multiset difference). */
  lemma RegsSnoc(event: string, callbacks: seq<Callback>, i: nat)
    requires i < |callbacks|
    ensures multiset(Regs(event, callbacks[..i + 1])) ==
              multiset(Regs(event, callbacks[..i])) + multiset{Registration(event, callbacks[i])}
  {
    assert callbacks[..i + 1][..i] == callbacks[..i];
  }

  /** How often `Regs` lists a registration: as often as the callback is stored, and only under `event`. */
  lemma {:induction false} RegsCount(event: string, callbacks: seq<Callback>)
    ensures forall r :: multiset(Regs(event, callbacks))[r] ==
                          if r.event == event then multiset(callbacks)[r.callback] else 0
  {
    if callbacks != [] {
      var init := callbacks[..|callbacks| - 1];
      assert callbacks == init + [callbacks[|callbacks| - 1]];
      RegsCount(event, init);
    }
  }

  /**
   * Every callback stored in the registry under `e` is a forwarding callback
   * for a listener of `e`, has an id below `nextId`, and is registered on the
   * hub under `e` exactly once.
   */
  ghost predicate RegisteredOnce(
    listeners: map<string, seq<Callback>>, registrations: multiset<Registration<Callback>>, nextId: nat)
  {
    forall e, cb :: e in listeners && cb in listeners[e] ==>
      && cb.Forward? && cb.id < nextId && cb.listener.event == e
      && registrations[Registration(e, cb)] == 1
  }

  /** Every forwarding callback on the hub is stored in the registry under the name it is registered with. */
  ghost predicate Listed(listeners: map<string, seq<Callback>>, handlers: seq<Registration<Callback>>) {
    forall r :: r in handlers && r.callback.Forward? ==> r.event in listeners && r.callback in listeners[r.event]
  }

  /**
   * The handlers left after taking off every registration of `callbacks`
   * under `event`, the others in their original order.
   */
  function Drop(handlers: seq<Registration<Callback>>, event: string, callbacks: seq<Callback>): seq<Registration<Callback>> {
    if handlers == [] then []
    else
      (if handlers[0].event == event && handlers[0].callback in callbacks then [] else [handlers[0]])
      + Drop(handlers[1..], event, callbacks)
  }

  /** A handler survives `Drop` exactly when it is not one of the dropped registrations. */
  lemma {:induction false} DropMembers(handlers: seq<Registration<Callback>>, event: string, callbacks: seq<Callback>)
    ensures forall r :: r in Drop(handlers, event, callbacks) <==> r in handlers && !(r.event == event && r.callback in callbacks)
  {
    if handlers != [] {
      DropMembers(handlers[1..], event, callbacks);
      assert forall r :: r in handlers <==> r == handlers[0] || r in handlers[1..];
    }
  }

  /** Dropping one more callback that is not registered under `event` changes nothing. */
  lemma {:induction false} DropUnregistered(
    handlers: seq<Registration<Callback>>, event: string, callbacks: seq<Callback>, cb: Callback)
    requires Registration(event, cb) !in handlers
    ensures Drop(handlers, event, callbacks + [cb]) == Drop(handlers, event, callbacks)
  {
    if handlers != [] {
      assert handlers[0] != Registration(event, cb);
      DropUnregistered(handlers[1..], event, callbacks, cb);
    }
  }

  /**
   * `off` for one more callback, registered at most once, after dropping a
   * batch, is dropping the enlarged batch.
   */
  lemma {:induction false} OffAfterDrop(
    handlers: seq<Registration<Callback>>, event: string, callbacks: seq<Callback>, cb: Callback)
    requires multiset(handlers)[Registration(event, cb)] <= 1
    ensures RemoveFirst(Drop(handlers, event, callbacks), Registration(event, cb)) == Drop(handlers, event, callbacks + [cb])
  {
    var x := Registration(event, cb);
    if handlers != [] {
      var head, rest := handlers[0], handlers[1..];
      assert handlers == [head] + rest;
      assert multiset(handlers) == multiset{head} + multiset(rest);
      var kept := Drop(rest, event, callbacks);
      assert Drop(handlers, event, callbacks + [cb])
          == (if head.event == event && head.callback in callbacks + [cb] then [] else [head])
             + Drop(rest, event, callbacks + [cb]);
      if head == x {
        assert x !in rest;
        DropUnregistered(rest, event, callbacks, cb);
        assert Drop(handlers, event, callbacks + [cb]) == kept;
        if cb in callbacks {
          DropMembers(rest, event, callbacks);
          RemoveFirstSplits(kept, x);
        } else {
          assert Drop(handlers, event, callbacks) == [x] + kept;
        }
      } else {
        OffAfterDrop(rest, event, callbacks, cb);
        if head.event == event && head.callback in callbacks {
          assert Drop(handlers, event, callbacks) == kept;
        } else {
          var d := Drop(handlers, event, callbacks);
          assert d == [head] + kept;
          assert d[0] == head && d[1..] == kept;
          assert RemoveFirst(d, x) == [head] + RemoveFirst(kept, x);
        }
      }
    }
  }

  /** Taking registrations off under `event` does not change what any other event delivers. */
  lemma {:induction false} DropKeepsOtherEvents(
    handlers: seq<Registration<Callback>>, event: string, callbacks: seq<Callback>, other: string, args: seq<Value>)
    requires other != event
    ensures Dispatch(Drop(handlers, event, callbacks), other, args) == Dispatch(handlers, other, args)
  {
    if handlers != [] {
      var head := if handlers[0].event == event && handlers[0].callback in callbacks then [] else [handlers[0]];
      DropKeepsOtherEvents(handlers[1..], event, callbacks, other, args);
      DispatchConcat(head, Drop(handlers[1..], event, callbacks), other, args);
      DispatchConcat([handlers[0]], handlers[1..], other, args);
      assert handlers == [handlers[0]] + handlers[1..];
      if head == [] {
        assert [handlers[0]][..0] == [];
        assert Dispatch([handlers[0]], other, args) == [];
      }
    }
  }

  /** With the registry invariant and an empty entry for `event`, an inbound `event` delivers nothing. */
  lemma SilentWhenEntryEmpty(
    listeners: map<string, seq<Callback>>, handlers: seq<Registration<Callback>>, event: string, args: seq<Value>)
    requires Listed(listeners, handlers)
    requires event in listeners && listeners[event] == []
    ensures Dispatch(handlers, event, args) == []
  {
    NoForwardersNoDelivery(handlers, event, args);
  }

  /**
   * Taking every registration of the callbacks stored under `event` off the
   * hub, and emptying that entry, keeps the registry invariant; none of those
   * callbacks stays registered under `event`, and no other handler is touched
   * unless it is one of them.
   */
  lemma StopListeningKeepsRegistry(
    listeners: map<string, seq<Callback>>, registrations: multiset<Registration<Callback>>, nextId: nat,
    event: string, callbacks: seq<Callback>)
    requires RegisteredOnce(listeners, registrations, nextId)
    requires callbacks == if event in listeners then listeners[event] else []
    ensures var remaining := registrations - multiset(Regs(event, callbacks));
            && RegisteredOnce(listeners[event := []], remaining, nextId)
            && (forall cb :: cb in callbacks ==> Registration(event, cb) !in remaining)
            && (forall r: Registration<Callback> :: !r.callback.Forward? ==> remaining[r] == registrations[r])
  {
    RegsCount(event, callbacks);
    RemovalKeepsOtherEntries(listeners, registrations, nextId, event, callbacks);
    RemovalClearsEntry(listeners, registrations, nextId, event, callbacks);
    RemovalKeepsNonForwarding(registrations, event, callbacks);
  }

  /**
   * What `StopListening` leaves behind, stated on values: given the handlers
   * `OffAll` returns for the entry of `event`, the emptied registry is valid
   * over them, they are the old handlers with the entry's registrations
   * filtered out, `event` reaches no listener through them, and every
   * non-forwarding handler survives.
   */
  lemma StopListeningOutcome(
    listeners: map<string, seq<Callback>>, handlers: seq<Registration<Callback>>, nextId: nat,
    event: string, callbacks: seq<Callback>, remaining: seq<Registration<Callback>>)
    requires RegisteredOnce(listeners, multiset(handlers), nextId) && Listed(listeners, handlers)
    requires callbacks == if event in listeners then listeners[event] else []
    requires multiset(remaining) == multiset(handlers) - multiset(Regs(event, callbacks))
    requires (forall cb :: cb in callbacks ==> multiset(handlers)[Registration(event, cb)] <= 1) ==>
               remaining == Drop(handlers, event, callbacks)
    ensures RegisteredOnce(listeners[event := []], multiset(remaining), nextId)
    ensures Listed(listeners[event := []], remaining)
    ensures remaining == Drop(handlers, event, callbacks)
    ensures forall args :: Dispatch(remaining, event, args) == []
    ensures forall r :: r in handlers && !r.callback.Forward? ==> r in remaining
  {
    StopListeningKeepsRegistry(listeners, multiset(handlers), nextId, event, callbacks);
    RemovalKeepsListed(listeners, handlers, nextId, event, callbacks, remaining);
    assert forall cb :: cb in callbacks ==> multiset(handlers)[Registration(event, cb)] <= 1;
    forall r | r in handlers && !r.callback.Forward? ensures r in remaining {
      assert multiset(remaining)[r] == multiset(handlers)[r];
    }
    forall args ensures Dispatch(remaining, event, args) == [] {
      SilentWhenEntryEmpty(listeners[event := []], remaining, event, args);
    }
  }

  /** Removing the registrations of `event`'s entry leaves every other entry registered once. */
  lemma RemovalKeepsOtherEntries(
    listeners: map<string, seq<Callback>>, registrations: multiset<Registration<Callback>>, nextId: nat,
    event: string, callbacks: seq<Callback>)
    requires RegisteredOnce(listeners, registrations, nextId)
    requires forall r :: multiset(Regs(event, callbacks))[r] ==
                          if r.event == event then multiset(callbacks)[r.callback] else 0
    ensures RegisteredOnce(listeners[event := []], registrations - multiset(Regs(event, callbacks)), nextId)
  {
    var removed := multiset(Regs(event, callbacks));
    var remaining := registrations - removed;
    forall e, cb | e in listeners[event := []] && cb in listeners[event := []][e]
      ensures remaining[Registration(e, cb)] == 1
    {
      assert e != event && e in listeners && cb in listeners[e];
      assert removed[Registration(e, cb)] == 0;
    }
  }

  /** Removing the registrations of `event`'s entry leaves none of them on the hub. */
  lemma RemovalClearsEntry(
    listeners: map<string, seq<Callback>>, registrations: multiset<Registration<Callback>>, nextId: nat,
    event: string, callbacks: seq<Callback>)
    requires RegisteredOnce(listeners, registrations, nextId)
    requires callbacks == if event in listeners then listeners[event] else []
    requires forall r :: multiset(Regs(event, callbacks))[r] ==
                          if r.event == event then multiset(callbacks)[r.callback] else 0
    ensures forall cb :: cb in callbacks ==> Registration(event, cb) !in registrations - multiset(Regs(event, callbacks))
  {
    var removed := multiset(Regs(event, callbacks));
    forall cb | cb in callbacks
      ensures Registration(event, cb) !in registrations - removed
    {
      assert registrations[Registration(event, cb)] == 1;
      assert removed[Registration(event, cb)] == multiset(callbacks)[cb];
    }
  }

  /** After the removal, every forwarding callback left on the hub is still stored in the registry. */
  lemma RemovalKeepsListed(
    listeners: map<string, seq<Callback>>, handlers: seq<Registration<Callback>>, nextId: nat,
    event: string, callbacks: seq<Callback>, remaining: seq<Registration<Callback>>)
    requires RegisteredOnce(listeners, multiset(handlers), nextId) && Listed(listeners, handlers)
    requires callbacks == if event in listeners then listeners[event] else []
    requires multiset(remaining) == multiset(handlers) - multiset(Regs(event, callbacks))
    ensures Listed(listeners[event := []], remaining)
  {
    var removed := multiset(Regs(event, callbacks));
    RegsCount(event, callbacks);
    forall r | r in remaining && r.callback.Forward?
      ensures r.event in listeners[event := []] && r.callback in listeners[event := []][r.event]
    {
      assert r in multiset(remaining);
      assert r in handlers by {
        assert multiset(handlers)[r] >= multiset(remaining)[r];
      }
    }
  }

  /** Removing forwarding callbacks keeps every other handler's count. */
  lemma RemovalKeepsNonForwarding(
    registrations: multiset<Registration<Callback>>, event: string, callbacks: seq<Callback>)
    requires forall cb :: cb in callbacks ==> cb.Forward?
    requires forall r :: multiset(Regs(event, callbacks))[r] ==
                          if r.event == event then multiset(callbacks)[r.callback] else 0
    ensures forall r: Registration<Callback> :: !r.callback.Forward? ==>
              (registrations - multiset(Regs(event, callbacks)))[r] == registrations[r]
  {
    forall r: Registration<Callback> | !r.callback.Forward?
      ensures (registrations - multiset(Regs(event, callbacks)))[r] == registrations[r]
    {
      assert r.callback !in callbacks;
    }
  }

  /** Taking one more element out, after a batch, is taking the enlarged batch out. */
  lemma DifferenceStep<T>(a: multiset<T>, b: multiset<T>, x: T)
    ensures a - b - multiset{x} == a - (b + multiset{x})
  {
  }

  /**
   * The loop of `stopListening`: `off(event, callback)` on the hub for each
   * callback in turn. Exactly one registration of each is taken off; when
   * each is registered at most once, what remains is the other handlers in
   * their original order. The hub's configuration and call log stay as they
   * were.
   */
  method OffAll(hub: HubConnection<Callback>, event: string, callbacks: seq<Callback>)
    returns (h: HubConnection<Callback>)
    ensures h == hub.(handlers := h.handlers)
    ensures multiset(h.handlers) == multiset(hub.handlers) - multiset(Regs(event, callbacks))
    ensures (forall cb :: cb in callbacks ==> multiset(hub.handlers)[Registration(event, cb)] <= 1) ==>
              h.handlers == Drop(hub.handlers, event, callbacks)
  {
    ghost var once := forall cb :: cb in callbacks ==> multiset(hub.handlers)[Registration(event, cb)] <= 1;
    h := hub;
    assert hub.handlers == Drop(hub.handlers, event, []) by {
      DropMembers(hub.handlers, event, []);
      DropUnchanged(hub.handlers, event);
    }
    for i := 0 to |callbacks|
      invariant h == hub.(handlers := h.handlers)
      invariant multiset(h.handlers) == multiset(hub.handlers) - multiset(Regs(event, callbacks[..i]))
      invariant once ==> h.handlers == Drop(hub.handlers, event, callbacks[..i])
    {
      OffAllCountStep(hub.handlers, h.handlers, event, callbacks, i);
      if once {
        OffAllOrderStep(hub.handlers, h.handlers, event, callbacks, i);
      }
      h := h.Off(event, callbacks[i]);
    }
    assert callbacks[..|callbacks|] == callbacks;
  }

  /** One turn of `OffAll`'s loop keeps its count invariant. */
  lemma OffAllCountStep(original: seq<Registration<Callback>>, current: seq<Registration<Callback>>,
                        event: string, callbacks: seq<Callback>, i: nat)
    requires i < |callbacks|
    requires multiset(current) == multiset(original) - multiset(Regs(event, callbacks[..i]))
    ensures multiset(RemoveFirst(current, Registration(event, callbacks[i])))
              == multiset(original) - multiset(Regs(event, callbacks[..i + 1]))
  {
    RemoveFirstMultiset(current, Registration(event, callbacks[i]));
    RegsSnoc(event, callbacks, i);
    DifferenceStep(multiset(original), multiset(Regs(event, callbacks[..i])), Registration(event, callbacks[i]));
  }

  /** One turn of `OffAll`'s loop keeps its order invariant. */
  lemma OffAllOrderStep(original: seq<Registration<Callback>>, current: seq<Registration<Callback>>,
                        event: string, callbacks: seq<Callback>, i: nat)
    requires i < |callbacks|
    requires multiset(original)[Registration(event, callbacks[i])] <= 1
    requires current == Drop(original, event, callbacks[..i])
    ensures RemoveFirst(current, Registration(event, callbacks[i])) == Drop(original, event, callbacks[..i + 1])
  {
    OffAfterDrop(original, event, callbacks[..i], callbacks[i]);
    assert callbacks[..i + 1] == callbacks[..i] + [callbacks[i]];
  }

  /** Dropping nothing keeps every handler. */
  lemma {:induction false} DropUnchanged(handlers: seq<Registration<Callback>>, event: string)
    ensures Drop(handlers, event, []) == handlers
  {
    if handlers != [] {
      DropUnchanged(handlers[1..], event);
    }
  }

  class SignalRConnection {
    const configuration: SignalRConfiguration
    var hub: HubConnection<Callback>
    /** The registry: event name to the callbacks registered for it, in order. */
    var listeners: map<string, seq<Callback>>
    /** The identity the next callback closure gets. */
    var nextId: nat
    var statuses: seq<Option<ConnectionStatus>>
    var errors: seq<HubError>
    var deliveries: seq<Delivery>
    var runs: seq<RunRecord>

    /** The registry entry for `event`, or the empty sequence when there is none. */
    function Entry(event: string): seq<Callback>
      reads this`listeners
    {
      if event in listeners then listeners[event] else []
    }

    /** The hub's registrations, as a multiset of (event name, callback). */
    ghost function Registrations(): multiset<Registration<Callback>>
      reads this`hub
    {
      multiset(hub.handlers)
    }

    /**
     * The registry invariant: every stored callback is registered on the hub
     * under its event exactly once, every forwarding callback on the hub is
     * stored, and the next closure is new to the hub.
     */
    ghost predicate Valid()
      reads this`hub, this`listeners, this`nextId
    {
      RegisteredOnce(listeners, Registrations(), nextId) && Listed(listeners, hub.handlers)
    }

    /**
     * Wraps `hub` with a snapshot of `configuration`; all streams and the
     * registry start empty. The hub holds none of this wrapper's closures,
     * which do not exist before it.
     */
    constructor(hub: HubConnection<Callback>, configuration: SignalRConfiguration)
      requires forall r :: r in hub.handlers ==> !r.callback.Forward?
      ensures Valid()
      ensures this.hub == hub && this.configuration == configuration
      ensures listeners == map[] && statuses == [] && errors == [] && deliveries == [] && runs == []
    {
      this.hub := hub;
      this.configuration := configuration;
      listeners := map[];
      nextId := 0;
      statuses := [];
      errors := [];
      deliveries := [];
      runs := [];
    }

    /** `run(func, inZone)`: the action runs once, on the path the flag selects. */
    method Run(emission: Emission, inZone: bool)
      modifies this`runs
      ensures runs == old(runs) + [RunRecord(emission, ZoneFor(inZone))]
    {
      runs := runs + [RunRecord(emission, ZoneFor(inZone))];
    }

    /**
     * `start()`: emits connecting, then starts the hub. On success emits
     * connected and resolves with the wrapper; on failure emits disconnected,
     * emits the error once through the runner with the errors flag, and
     * rejects with a reason carrying the error's message.
     */
    method Start(outcome: StartOutcome) returns (p: Settled<SignalRConnection, string>)
      requires Valid()
      modifies this`statuses, this`errors, this`runs, this`hub
      ensures Valid()
      ensures hub == old(hub).Called(StartCall)
      ensures outcome.Started? ==>
                && statuses == old(statuses) + [Some(Connecting), Some(Connected)]
                && errors == old(errors) && runs == old(runs)
                && p == Resolved(this)
      ensures outcome.StartFailed? ==>
                && statuses == old(statuses) + [Some(Connecting), Some(Disconnected)]
                && errors == old(errors) + [outcome.error]
                && runs == old(runs) + [RunRecord(ErrorEmission, ZoneFor(configuration.executeErrorsInZone))]
                && p == Rejected(ConnectFailureReason(outcome.error))
    {
      statuses := statuses + [Some(Connecting)];
      hub := hub.Called(StartCall);
      assert Registrations() == old(Registrations());
      match outcome {
        case Started =>
          statuses := statuses + [Some(Connected)];
          p := Resolved(this);
        case StartFailed(error) =>
          statuses := statuses + [Some(Disconnected)];
          Run(ErrorEmission, configuration.executeErrorsInZone);
          errors := errors + [error];
          p := Rejected(ConnectFailureReason(error));
      }
    }

    /** `stop()`: emits disconnected on every call, then stops the hub. */
    method Stop()
      requires Valid()
      modifies this`statuses, this`hub
      ensures Valid()
      ensures statuses == old(statuses) + [Some(Disconnected)]
      ensures hub == old(hub).Called(StopCall)
    {
      statuses := statuses + [Some(Disconnected)];
      hub := hub.Called(StopCall);
    }

    /**
     * `invoke(method, ...parameters)`: throws only for a null method name
     * (the empty name is passed on); otherwise calls the hub and settles as
     * the hub's call settles, with its result or its error unchanged.
     */
    method Invoke(methodName: Option<string>, parameters: seq<Value>, outcome: InvokeOutcome)
      returns (r: Result<Settled<Value, Value>, ArgumentError>)
      requires Valid()
      modifies this`hub
      ensures Valid()
      ensures methodName.None? ==> r == Failure(InvokeMethodNull) && hub == old(hub)
      ensures methodName.Some? ==> hub == old(hub).Called(InvokeCall(methodName.value, parameters))
      ensures methodName.Some? && outcome.Returned? ==> r == Success(Resolved(outcome.result))
      ensures methodName.Some? && outcome.Threw? ==> r == Success(Rejected(outcome.error))
    {
      if methodName.None? {
        return Failure(InvokeMethodNull);
      }
      hub := hub.Called(InvokeCall(methodName.value, parameters));
      match outcome {
        case Returned(result) => r := Success(Resolved(result));
        case Threw(error) => r := Success(Rejected(error));
      }
    }

    /**
     * `setListener(callback, listener)`: builds a new callback closure,
     * registers it on the hub under the listener's event and appends it to
     * that event's registry entry; other entries are untouched.
     */
    method SetListener(projection: Projection, listener: BroadcastEventListener) returns (cb: Callback)
      requires Valid()
      modifies this`hub, this`listeners, this`nextId
      ensures Valid()
      ensures cb == Forward(old(nextId), projection, listener) && nextId == old(nextId) + 1
      ensures Registration(listener.event, cb) !in old(hub.handlers)
      ensures hub == old(hub).On(listener.event, cb)
      ensures listeners == old(listeners)[listener.event := old(Entry(listener.event)) + [cb]]
    {
      var e := listener.event;
      cb := Forward(nextId, projection, listener);
      var entry := Entry(e);
      ghost var before := Registrations();
      assert Registration(e, cb) !in hub.handlers;
      hub := hub.On(e, cb);
      assert Registrations() == before + multiset{Registration(e, cb)};
      listeners := listeners[e := entry + [cb]];
      nextId := nextId + 1;
    }

    /** `listen(listener)`: throws for null; otherwise forwards first arguments to the listener. */
    method Listen(listener: BroadcastEventListener?) returns (thrown: Option<ArgumentError>)
      requires Valid()
      modifies this`hub, this`listeners, this`nextId
      ensures Valid()
      ensures listener == null ==>
                thrown == Some(ListenerNull) && hub == old(hub) && listeners == old(listeners) && nextId == old(nextId)
      ensures listener != null ==>
                var cb := Forward(old(nextId), FirstArgument, listener);
                && thrown == None
                && hub == old(hub).On(listener.event, cb)
                && listeners == old(listeners)[listener.event := old(Entry(listener.event)) + [cb]]
                && nextId == old(nextId) + 1
    {
      if listener == null {
        return Some(ListenerNull);
      }
      var _ := SetListener(FirstArgument, listener);
      thrown := None;
    }

    /**
     * `listenFor(event)`: throws for a null or empty event name, leaving the
     * registry and the hub as they were; otherwise creates a listener for the
     * event and listens with it.
     */
    method ListenFor(event: Option<string>) returns (r: Result<BroadcastEventListener, ArgumentError>)
      requires Valid()
      modifies this`hub, this`listeners, this`nextId
      ensures Valid()
      ensures event.None? || event.value == "" ==>
                r == Failure(EventEmpty) && hub == old(hub) && listeners == old(listeners) && nextId == old(nextId)
      ensures event.Some? && event.value != "" ==>
                && r.Success? && fresh(r.value) && r.value.event == event.value
                && var cb := Forward(old(nextId), FirstArgument, r.value);
                && hub == old(hub).On(event.value, cb)
                && listeners == old(listeners)[event.value := old(Entry(event.value)) + [cb]]
                && nextId == old(nextId) + 1
    {
      if event.None? || event.value == "" {
        return Failure(EventEmpty);
      }
      var listener := new BroadcastEventListener(event.value);
      var _ := Listen(listener);
      r := Success(listener);
    }

    /**
     * `listenForRaw(event)`: like `listenFor`, but the callback forwards the
     * whole argument list.
     */
    method ListenForRaw(event: Option<string>) returns (r: Result<BroadcastEventListener, ArgumentError>)
      requires Valid()
      modifies this`hub, this`listeners, this`nextId
      ensures Valid()
      ensures event.None? || event.value == "" ==>
                r == Failure(EventEmpty) && hub == old(hub) && listeners == old(listeners) && nextId == old(nextId)
      ensures event.Some? && event.value != "" ==>
                && r.Success? && fresh(r.value) && r.value.event == event.value
                && var cb := Forward(old(nextId), AllArguments, r.value);
                && hub == old(hub).On(event.value, cb)
                && listeners == old(listeners)[event.value := old(Entry(event.value)) + [cb]]
                && nextId == old(nextId) + 1
    {
      if event.None? || event.value == "" {
        return Failure(EventEmpty);
      }
      var listener := new BroadcastEventListener(event.value);
      var _ := SetListener(AllArguments, listener);
      r := Success(listener);
    }

    /**
     * `stopListening(listener)`: throws for null. Otherwise calls `off` on the
     * hub for every callback stored under the listener's event name, whichever
     * listener it belongs to, and leaves that entry present and empty. Other
     * entries, and every other hub handler (the no-op handler among them),
     * are kept.
     */
    method StopListening(listener: BroadcastEventListener?) returns (thrown: Option<ArgumentError>)
      requires Valid()
      modifies this`hub, this`listeners
      ensures Valid()
      ensures listener == null ==> thrown == Some(ListenerNull) && hub == old(hub) && listeners == old(listeners)
      ensures listener != null ==>
                && thrown == None
                && listeners == old(listeners)[listener.event := []]
                && hub == old(hub).(handlers := Drop(old(hub.handlers), listener.event, old(Entry(listener.event))))
                && Registrations() == old(Registrations()) - multiset(Regs(listener.event, old(Entry(listener.event))))
      ensures listener != null ==> forall args :: Dispatch(hub.handlers, listener.event, args) == []
      ensures forall r :: r in old(hub.handlers) && !r.callback.Forward? ==> r in hub.handlers
    {
      if listener == null {
        return Some(ListenerNull);
      }
      ClearEntry(listener.event);
      thrown := None;
    }

    /** The work of `stopListening` for a listener on `event`. */
    method ClearEntry(event: string)
      requires Valid()
      modifies this`hub, this`listeners
      ensures Valid()
      ensures listeners == old(listeners)[event := []]
      ensures hub == old(hub).(handlers := Drop(old(hub.handlers), event, old(Entry(event))))
      ensures Registrations() == old(Registrations()) - multiset(Regs(event, old(Entry(event))))
      ensures forall args :: Dispatch(hub.handlers, event, args) == []
      ensures forall r :: r in old(hub.handlers) && !r.callback.Forward? ==> r in hub.handlers
    {
      // An absent entry is read as empty (the source first creates it).
      var callbacks := Entry(event);
      var h := OffAll(hub, event, callbacks);
      StopListeningOutcome(listeners, hub.handlers, nextId, event, callbacks, h.handlers);
      hub := h;
      listeners := listeners[event := []];
    }

    /**
     * An inbound invocation of `event` with `args`: the hub calls every
     * handler registered under the name, in order; each forwarding callback
     * runs, through the runner with the events flag, an action that hands
     * its projection of `args` to its listener.
     */
    method Receive(event: string, args: seq<Value>)
      requires Valid()
      modifies this`deliveries, this`runs
      ensures Valid()
      ensures deliveries == old(deliveries) + Dispatch(hub.handlers, event, args)
      ensures runs == old(runs) + Repeat(RunRecord(EventEmission, ZoneFor(configuration.executeEventsInZone)),
                                         |Dispatch(hub.handlers, event, args)|)
    {
      var handlers := hub.handlers;
      ghost var record := RunRecord(EventEmission, ZoneFor(configuration.executeEventsInZone));
      var i := 0;
      while i < |handlers|
        invariant 0 <= i <= |handlers|
        invariant deliveries == old(deliveries) + Dispatch(handlers[..i], event, args)
        invariant runs == old(runs) + Repeat(record, |Dispatch(handlers[..i], event, args)|)
      {
        var r := handlers[i];
        assert handlers[..i + 1][..i] == handlers[..i];
        if Forwards(r, event) {
          Run(EventEmission, configuration.executeEventsInZone);
          deliveries := deliveries + [Delivery(r.callback.listener, Project(r.callback.projection, args))];
        }
        i := i + 1;
      }
      assert handlers[..i] == handlers;
    }

    /**
     * The handler wired to the hub's close notification: through the runner
     * with the status-change flag, emits the status `OnCloseStatus` gives
     * for the payload.
     */
    method OnHubClosed(change: Value)
      modifies this`statuses, this`runs
      ensures statuses == old(statuses) + [OnCloseStatus(change)]
      ensures runs == old(runs) + [RunRecord(StatusEmission, ZoneFor(configuration.executeStatusChangeInZone))]
    {
      Run(StatusEmission, configuration.executeStatusChangeInZone);
      statuses := statuses + [OnCloseStatus(change)];
    }
  }
}
