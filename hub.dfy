/** The `LogLevel` enumeration of the hub client library, in declaration order. */
module Logging {
  datatype LogLevel = Trace | Debug | Information | Warning | Error | Critical | None
}

/**
 * The part of the hub client library's `HubConnection` that the wrapper
 * relies on, as a value: what the builder configured it with, the handlers
 * registered with `on` (in registration order) and a log of the calls made
 * to `start`, `stop` and `invoke`. Transport, negotiation and the network are
 * not modelled; the outcome of a call is supplied by the caller of the
 * wrapper's methods.
 */
module AspNetSignalR {
  import opened Wrappers
  import opened Js
  import Logging

  /** One `on(event, callback)` registration. */
  datatype Registration<C> = Registration(event: string, callback: C)

  /** A call the wrapper made on the hub connection. */
  datatype HubCall = StartCall | StopCall | InvokeCall(methodName: string, args: seq<Value>)

  datatype HubConnection<C(==)> = HubConnection(
    url: Option<string>,
    httpConnectionOptions: Value,
    logging: Logging.LogLevel,
    handlers: seq<Registration<C>>,
    calls: seq<HubCall>)
  {
    /** `on(event, callback)`: the callback is added after every earlier handler. */
    function On(event: string, callback: C): HubConnection<C> {
      this.(handlers := handlers + [Registration(event, callback)])
    }

    /**
     * `off(event, callback)`: removes the first registration of that
     * callback under that name, if there is one; the other handlers keep
     * their order.
     */
    function Off(event: string, callback: C): (h: HubConnection<C>)
      ensures IndexOf(handlers, Registration(event, callback)) == -1 ==> h == this
      ensures var k := IndexOf(handlers, Registration(event, callback));
              k != -1 ==> h == this.(handlers := handlers[..k] + handlers[k + 1..])
      ensures multiset(h.handlers) == multiset(handlers) - multiset{Registration(event, callback)}
    {
      RemoveFirstMultiset(handlers, Registration(event, callback));
      RemoveFirstSplits(handlers, Registration(event, callback));
      this.(handlers := RemoveFirst(handlers, Registration(event, callback)))
    }

    /** Records a call to `start`, `stop` or `invoke`. */
    function Called(call: HubCall): HubConnection<C> {
      this.(calls := calls + [call])
    }
  }

  /** `new HubConnectionBuilder().withUrl(url, options).configureLogging(logging).build()`. */
  function Build<C(==)>(url: Option<string>, httpConnectionOptions: Value, logging: Logging.LogLevel): (h: HubConnection<C>)
    ensures h.handlers == [] && h.calls == []
    ensures h.url == url && h.httpConnectionOptions == httpConnectionOptions && h.logging == logging
  {
    HubConnection(url, httpConnectionOptions, logging, [], [])
  }

  /** The first index holding `x`, or -1 when there is none (`indexOf`). */
  function IndexOf<T(==)>(s: seq<T>, x: T): (k: int)
    ensures k == -1 <==> x !in s
    ensures k != -1 ==> 0 <= k < |s| && s[k] == x && x !in s[..k]
  {
    if s == [] then -1
    else if s[0] == x then 0
    else
      var k := IndexOf(s[1..], x);
      assert x !in s[1..] ==> x !in s by {
        assert s == [s[0]] + s[1..];
      }
      if k == -1 then -1
      else
        assert s[..k + 1] == [s[0]] + s[1..][..k];
        k + 1
  }

  /** The sequence without its first occurrence of `x` (`splice(indexOf(x), 1)`). */
  function RemoveFirst<T(==)>(s: seq<T>, x: T): seq<T> {
    if s == [] then []
    else if s[0] == x then s[1..]
    else [s[0]] + RemoveFirst(s[1..], x)
  }

  /**
   * Removing the first occurrence cuts the sequence at the first index
   * holding `x` and joins the two sides; without `x` nothing changes.
   */
  lemma {:induction false} RemoveFirstSplits<T>(s: seq<T>, x: T)
    ensures IndexOf(s, x) == -1 ==> RemoveFirst(s, x) == s
    ensures var k := IndexOf(s, x); k != -1 ==> RemoveFirst(s, x) == s[..k] + s[k + 1..]
  {
    if s != [] && s[0] != x {
      RemoveFirstSplits(s[1..], x);
      var k := IndexOf(s[1..], x);
      if k == -1 {
        assert s == [s[0]] + s[1..];
      } else {
        assert s[..k + 1] == [s[0]] + s[1..][..k];
        assert s[k + 2..] == s[1..][k + 1..];
      }
    }
  }

  /** Removing the first occurrence takes exactly one copy of `x` out of the multiset, if there is one. */
  lemma {:induction false} RemoveFirstMultiset<T>(s: seq<T>, x: T)
    ensures multiset(RemoveFirst(s, x)) == multiset(s) - multiset{x}
  {
    if s != [] {
      assert s == [s[0]] + s[1..];
      if s[0] != x {
        RemoveFirstMultiset(s[1..], x);
      }
    }
  }
}
