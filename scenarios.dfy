/**
 * Client-side scenarios that combine several operations of the wrapper and
 * the factory; each one's postcondition is what a caller can rely on from
 * the specifications of those operations alone.
 */
module Scenarios {
  import opened Wrappers
  import opened Js
  import opened AspNetSignalR
  import opened Config
  import opened Connection
  import opened Service

  /** The defaults with a hub url, which the hub builder's `withUrl` requires. */
  const Hosted := DefaultConfiguration.(url := Some("http://localhost/hub"))

  /**
   * A fresh connection with two listeners on the same event name "foo",
   * after one inbound "foo": both listeners received it, in the order they
   * were attached.
   */
  method TwoListenersOnOneEvent(args: seq<Value>)
    returns (c: SignalRConnection, first: BroadcastEventListener, second: BroadcastEventListener)
    ensures fresh(c) && c.Valid()
    ensures first != second && first.event == "foo" && second.event == "foo"
    ensures c.deliveries == [Delivery(first, Project(FirstArgument, args)), Delivery(second, Project(FirstArgument, args))]
    ensures multiset(c.hub.handlers) - multiset(Regs("foo", c.Entry("foo"))) == multiset{Registration(NoOpEvent, NoOp)}
  {
    c := NewConnection();
    first, second := AttachTwo(c, args);
    c.Receive("foo", args);
  }

  /**
   * `createConnection()` on a factory over the defaults with a url: the hub holds only
   * the no-op registration and nothing has been listened for or logged.
   */
  method NewConnection() returns (c: SignalRConnection)
    ensures fresh(c) && c.Valid()
    ensures c.hub.handlers == [Registration(NoOpEvent, NoOp)] && c.hub.calls == []
    ensures c.listeners == map[] && c.statuses == [] && c.errors == [] && c.deliveries == [] && c.runs == []
  {
    var factory := new SignalR(Hosted);
    c := factory.CreateConnection(None);
  }

  /**
   * `listenFor("foo")` twice on a connection whose hub holds only the no-op
   * registration and whose registry is empty: an inbound "foo" with `args`
   * would reach the two new listeners in order, and removing the registry's
   * "foo" callbacks from the hub would leave the no-op registration.
   */
  method AttachTwo(c: SignalRConnection, args: seq<Value>) returns (first: BroadcastEventListener, second: BroadcastEventListener)
    requires c.Valid() && c.hub.handlers == [Registration(NoOpEvent, NoOp)] && c.listeners == map[]
    modifies c`hub, c`listeners, c`nextId
    ensures c.Valid() && fresh(first) && fresh(second) && first != second
    ensures first.event == "foo" && second.event == "foo"
    ensures Dispatch(c.hub.handlers, "foo", args) ==
              [Delivery(first, Project(FirstArgument, args)), Delivery(second, Project(FirstArgument, args))]
    ensures multiset(c.hub.handlers) - multiset(Regs("foo", c.Entry("foo"))) == multiset{Registration(NoOpEvent, NoOp)}
  {
    ghost var id := c.nextId;
    var r1 := c.ListenFor(Some("foo"));
    var r2 := c.ListenFor(Some("foo"));
    first, second := r1.value, r2.value;
    ghost var noOp, cb1, cb2 := Registration(NoOpEvent, NoOp), Forward(id, FirstArgument, first), Forward(id + 1, FirstArgument, second);
    assert c.hub.handlers == [noOp] + [Registration("foo", cb1)] + [Registration("foo", cb2)];
    assert c.Entry("foo") == [cb1, cb2];
    TwoForwarders(noOp, cb1, cb2, args);
  }

  /** Dispatch and removal over a no-op handler and two forwarders under "foo". */
  lemma TwoForwarders(noOp: Registration<Callback>, cb1: Callback, cb2: Callback, args: seq<Value>)
    requires !noOp.callback.Forward? && cb1.Forward? && cb2.Forward?
    ensures Dispatch([noOp] + [Registration("foo", cb1)] + [Registration("foo", cb2)], "foo", args) ==
              [Delivery(cb1.listener, Project(cb1.projection, args)), Delivery(cb2.listener, Project(cb2.projection, args))]
    ensures multiset([noOp] + [Registration("foo", cb1)] + [Registration("foo", cb2)]) - multiset(Regs("foo", [cb1, cb2]))
              == multiset{noOp}
  {
    assert [cb1, cb2][..1] == [cb1];
    assert Regs("foo", [cb1, cb2]) == Regs("foo", [cb1]) + [Registration("foo", cb2)];
    DispatchSnoc([], noOp, "foo", args);
    DispatchSnoc([noOp], Registration("foo", cb1), "foo", args);
    DispatchSnoc([noOp] + [Registration("foo", cb1)], Registration("foo", cb2), "foo", args);
    assert Dispatch([], "foo", args) == [];
  }

  /**
   * Two listeners on the same event name "foo": an inbound "foo" reaches
   * both; after `stopListening` with the first of them only, the next
   * inbound "foo" reaches neither.
   */
  method StopListeningIsEventScoped(args: seq<Value>)
    returns (first: BroadcastEventListener, second: BroadcastEventListener,
             before: seq<Delivery>, after: seq<Delivery>)
    ensures first != second && first.event == "foo" && second.event == "foo"
    ensures before == [Delivery(first, Project(FirstArgument, args)), Delivery(second, Project(FirstArgument, args))]
    ensures after == []
  {
    var c;
    c, first, second := TwoListenersOnOneEvent(args);
    before := c.deliveries;
    var _ := c.StopListening(first);
    var n := |c.deliveries|;
    c.Receive("foo", args);
    after := c.deliveries[n..];
  }

  /**
   * Listeners a on "x", b on "y" and c on "x", attached in that order;
   * after `stopListening(b)` an inbound "x" still reaches a and then c.
   */
  method StopListeningKeepsOtherEvents(args: seq<Value>)
    returns (a: BroadcastEventListener, b: BroadcastEventListener, c: BroadcastEventListener, delivered: seq<Delivery>)
    ensures a.event == "x" && b.event == "y" && c.event == "x"
    ensures delivered == [Delivery(a, Project(FirstArgument, args)), Delivery(c, Project(FirstArgument, args))]
  {
    var conn := NewConnection();
    ghost var id := conn.nextId;
    a, b, c := AttachInterleaved(conn);
    StopMiddle(conn, id, a, b, c, args);
    var n := |conn.deliveries|;
    conn.Receive("x", args);
    delivered := conn.deliveries[n..];
  }

  /** `stopListening(b)` on the connection `AttachInterleaved` leaves: "x" still reaches a, then c. */
  method StopMiddle(conn: SignalRConnection, ghost id: nat, a: BroadcastEventListener, b: BroadcastEventListener,
                    c: BroadcastEventListener, args: seq<Value>)
    requires conn.Valid() && b.event == "y"
    requires conn.hub.handlers == [Registration(NoOpEvent, NoOp)] + [Registration("x", Forward(id, FirstArgument, a))]
                                  + [Registration("y", Forward(id + 1, FirstArgument, b))]
                                  + [Registration("x", Forward(id + 2, FirstArgument, c))]
    requires conn.Entry("y") == [Forward(id + 1, FirstArgument, b)]
    modifies conn`hub, conn`listeners
    ensures conn.Valid()
    ensures Dispatch(conn.hub.handlers, "x", args) ==
              [Delivery(a, Project(FirstArgument, args)), Delivery(c, Project(FirstArgument, args))]
  {
    ghost var noOp := Registration(NoOpEvent, NoOp);
    ghost var ca, cb, cc := Forward(id, FirstArgument, a), Forward(id + 1, FirstArgument, b), Forward(id + 2, FirstArgument, c);
    InterleavedForwarders(noOp, ca, cb, cc, args);
    var _ := conn.StopListening(b);
  }

  /**
   * `listenFor("x")`, `listenFor("y")`, `listenFor("x")` on a connection
   * whose hub holds only the no-op registration and whose registry is empty.
   */
  method AttachInterleaved(conn: SignalRConnection) returns (a: BroadcastEventListener, b: BroadcastEventListener, c: BroadcastEventListener)
    requires conn.Valid() && conn.hub.handlers == [Registration(NoOpEvent, NoOp)] && conn.listeners == map[]
    modifies conn`hub, conn`listeners, conn`nextId
    ensures conn.Valid() && a.event == "x" && b.event == "y" && c.event == "x"
    ensures var id := old(conn.nextId);
            var cb := Forward(id + 1, FirstArgument, b);
            && conn.hub.handlers == [Registration(NoOpEvent, NoOp)] + [Registration("x", Forward(id, FirstArgument, a))]
                                    + [Registration("y", cb)] + [Registration("x", Forward(id + 2, FirstArgument, c))]
            && conn.Entry("y") == [cb]
  {
    var ra := conn.ListenFor(Some("x"));
    var rb := conn.ListenFor(Some("y"));
    var rc := conn.ListenFor(Some("x"));
    a, b, c := ra.value, rb.value, rc.value;
  }

  /**
   * Dispatch of "x" over a no-op handler and forwarders under "x", "y" and
   * "x", with and without the "y" registration.
   */
  lemma InterleavedForwarders(noOp: Registration<Callback>, ca: Callback, cb: Callback, cc: Callback, args: seq<Value>)
    requires !noOp.callback.Forward? && ca.Forward? && cb.Forward? && cc.Forward?
    ensures var handlers := [noOp] + [Registration("x", ca)] + [Registration("y", cb)] + [Registration("x", cc)];
            var expected := [Delivery(ca.listener, Project(ca.projection, args)), Delivery(cc.listener, Project(cc.projection, args))];
            Dispatch(handlers, "x", args) == expected && Dispatch(Drop(handlers, "y", [cb]), "x", args) == expected
  {
    DropKeepsOtherEvents([noOp] + [Registration("x", ca)] + [Registration("y", cb)] + [Registration("x", cc)], "y", [cb], "x", args);
    DispatchSnoc([], noOp, "x", args);
    DispatchSnoc([noOp], Registration("x", ca), "x", args);
    DispatchSnoc([noOp] + [Registration("x", ca)], Registration("y", cb), "x", args);
    DispatchSnoc([noOp] + [Registration("x", ca)] + [Registration("y", cb)], Registration("x", cc), "x", args);
    assert Dispatch([], "x", args) == [];
  }

  /**
   * `listenFor(event)`, or `listenForRaw(event)` when `raw` holds, on a
   * connection whose hub holds only the no-op registration: an inbound
   * `event` then reaches the new listener alone, with its projection.
   */
  method ListenOne(c: SignalRConnection, event: string, raw: bool) returns (l: BroadcastEventListener)
    requires c.Valid() && c.hub.handlers == [Registration(NoOpEvent, NoOp)] && event != ""
    modifies c`hub, c`listeners, c`nextId
    ensures c.Valid() && l.event == event
    ensures forall args :: Dispatch(c.hub.handlers, event, args) ==
              [Delivery(l, Project(if raw then AllArguments else FirstArgument, args))]
  {
    ghost var id := c.nextId;
    var r;
    if raw {
      r := c.ListenForRaw(Some(event));
    } else {
      r := c.ListenFor(Some(event));
    }
    l := r.value;
    ghost var noOp := Registration(NoOpEvent, NoOp);
    ghost var reg := Registration(event, Forward(id, if raw then AllArguments else FirstArgument, l));
    assert c.hub.handlers == [noOp] + [reg];
    forall args
      ensures Dispatch(c.hub.handlers, event, args) == [Delivery(l, Project(if raw then AllArguments else FirstArgument, args))]
    {
      DispatchSnoc([], noOp, event, args);
      DispatchSnoc([noOp], reg, event, args);
    }
  }

  /**
   * What the listener of a fresh `listenFor(event)` (`listenForRaw(event)`
   * when `raw` holds) receives for one inbound `event` with `args`.
   */
  method Payload(event: string, raw: bool, args: seq<Value>) returns (v: Value)
    requires event != ""
    ensures v == Project(if raw then AllArguments else FirstArgument, args)
  {
    var c := NewConnection();
    var l := ListenOne(c, event, raw);
    assert Dispatch(c.hub.handlers, event, args) == [Delivery(l, Project(if raw then AllArguments else FirstArgument, args))];
    c.Receive(event, args);
    v := c.deliveries[0].value;
  }

  /**
   * Payload projection end to end: a listener from `listenForRaw("msg")`
   * receives `(1, "a", true)` as the list `[1, "a", true]` and no arguments
   * as `[]`.
   */
  method RawPayloads() returns (full: Value, empty: Value)
    ensures full == Arr([Num(1), Str("a"), Bool(true)])
    ensures empty == Arr([])
  {
    full := Payload("msg", true, [Num(1), Str("a"), Bool(true)]);
    empty := Payload("msg", true, []);
  }

  /**
   * A listener from `listenFor("n")` receives `(42)` as `42` and no
   * arguments as null.
   */
  method FirstArgumentPayloads() returns (one: Value, none: Value)
    ensures one == Num(42)
    ensures none == Null
  {
    one := Payload("n", false, [Num(42)]);
    none := Payload("n", false, []);
  }

  /**
   * Zone routing of an inbound event on a connection built by `factory`
   * with `options`: the path its one delivery takes.
   */
  method EventZone(factory: SignalR, options: Option<ConnectionOptions>, args: seq<Value>) returns (zone: Zone)
    ensures zone == ZoneFor(Merge(factory.configuration, if options.Some? then options.value else NoOptions).executeEventsInZone)
  {
    var c := factory.CreateConnection(options);
    zone := DeliveryZone(c, args);
  }

  /**
   * On a connection whose hub holds only the no-op registration, the path
   * the one delivery of an inbound event to a new listener takes.
   */
  method DeliveryZone(c: SignalRConnection, args: seq<Value>) returns (zone: Zone)
    requires c.Valid() && c.hub.handlers == [Registration(NoOpEvent, NoOp)]
    modifies c`hub, c`listeners, c`nextId, c`deliveries, c`runs
    ensures zone == ZoneFor(c.configuration.executeEventsInZone)
  {
    var l := ListenOne(c, "e", false);
    assert |Dispatch(c.hub.handlers, "e", args)| == 1;
    var n := |c.runs|;
    c.Receive("e", args);
    zone := c.runs[n].zone;
  }

  /**
   * With a base configuration that turns `executeEventsInZone` off, an
   * inbound event takes the outside-zone path; over the defaults it stays
   * inside the zone even when the options pass `executeEventsInZone: false`.
   */
  method EventZoneRouting(args: seq<Value>) returns (offInBase: Zone, offInOptions: Zone)
    ensures offInBase == OutsideZone
    ensures offInOptions == InsideZone
  {
    var outside := new SignalR(Hosted.(executeEventsInZone := false));
    offInBase := EventZone(outside, None, args);
    var inside := new SignalR(Hosted);
    offInOptions := EventZone(inside, Some(NoOptions.(executeEventsInZone := Some(false))), args);
  }

  /** Stopping twice emits disconnected once per call and stops the hub twice. */
  method StopTwice() returns (statuses: seq<Option<ConnectionStatus>>, calls: seq<HubCall>)
    ensures statuses == [Some(Disconnected), Some(Disconnected)]
    ensures calls == [StopCall, StopCall]
  {
    var factory := new SignalR(Hosted);
    var c := factory.CreateConnection(None);
    c.Stop();
    c.Stop();
    statuses, calls := c.statuses, c.hub.calls;
  }
}
