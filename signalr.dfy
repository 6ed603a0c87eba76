/**
 * The connection factory `SignalR`: it merges per-call options over its base
 * configuration, builds a hub connection with at least one handler, and wraps
 * it.
 */
module Service {
  import opened Wrappers
  import opened Js
  import opened AspNetSignalR
  import opened Config
  import opened Connection
  import Logging

  /** A string option that `||` keeps: present and not empty. */
  predicate Given(s: Option<string>) {
    s.Some? && s.value != ""
  }

  /**
   * `merge(overrides)`: a fresh configuration whose every field is the
   * JavaScript `overrides.field || base.field`, except `logging`, which
   * always comes from the base. A falsy override (absent, null, `''`, `0`,
   * `false`) leaves the base value; for the boolean zone flags that makes
   * the merge a logical or.
   */
  function Merge(base: SignalRConfiguration, overrides: ConnectionOptions): (merged: SignalRConfiguration)
    ensures StringValue(merged.hubName) == Or(StringValue(overrides.hubName), StringValue(base.hubName))
    ensures StringValue(merged.url) == Or(StringValue(overrides.url), StringValue(base.url))
    ensures merged.httpConnectionOptions == Or(overrides.httpConnectionOptions, base.httpConnectionOptions)
    ensures merged.qs == Or(overrides.qs, base.qs)
    ensures merged.logging == base.logging
    ensures Bool(merged.jsonp) == Or(BoolValue(overrides.jsonp), Bool(base.jsonp))
    ensures Bool(merged.withCredentials) == Or(BoolValue(overrides.withCredentials), Bool(base.withCredentials))
    // A transport setting is an object or an array, so any override of it is truthy.
    ensures merged.transport == if overrides.transport.Some? then overrides.transport.value else base.transport
    ensures Bool(merged.executeEventsInZone) == Or(BoolValue(overrides.executeEventsInZone), Bool(base.executeEventsInZone))
    ensures Bool(merged.executeErrorsInZone) == Or(BoolValue(overrides.executeErrorsInZone), Bool(base.executeErrorsInZone))
    ensures Bool(merged.executeStatusChangeInZone) ==
              Or(BoolValue(overrides.executeStatusChangeInZone), Bool(base.executeStatusChangeInZone))
    ensures Num(merged.pingInterval) == Or(NumberValue(overrides.pingInterval), Num(base.pingInterval))
  {
    SignalRConfiguration(
      url := OrString(overrides.url, base.url),
      qs := Or(overrides.qs, base.qs),
      hubName := OrString(overrides.hubName, base.hubName),
      logging := base.logging,
      jsonp := OrBool(overrides.jsonp, base.jsonp),
      withCredentials := OrBool(overrides.withCredentials, base.withCredentials),
      pingInterval := match overrides.pingInterval
                      case Some(n) => if n != 0 then n else base.pingInterval
                      case None => base.pingInterval,
      transport := match overrides.transport
                   case Some(t) => t
                   case None => base.transport,
      executeEventsInZone := OrBool(overrides.executeEventsInZone, base.executeEventsInZone),
      executeErrorsInZone := OrBool(overrides.executeErrorsInZone, base.executeErrorsInZone),
      executeStatusChangeInZone := OrBool(overrides.executeStatusChangeInZone, base.executeStatusChangeInZone),
      httpConnectionOptions := Or(overrides.httpConnectionOptions, base.httpConnectionOptions))
  }

  /** `o || b` for an optional string. */
  function OrString(o: Option<string>, b: Option<string>): Option<string> {
    if Given(o) then o else b
  }

  /** `o || b` for an optional boolean over a boolean. */
  function OrBool(o: Option<bool>, b: bool): bool {
    match o
    case Some(v) => v || b
    case None => b
  }

  /** An optional string as JavaScript holds it; absent and `null` are both falsy, and both read as `null`. */
  function StringValue(o: Option<string>): Value {
    match o
    case Some(s) => Str(s)
    case None => Null
  }

  /** An optional boolean option as JavaScript holds it. */
  function BoolValue(o: Option<bool>): Value {
    match o
    case Some(b) => Bool(b)
    case None => Undefined
  }

  /** An optional number option as JavaScript holds it. */
  function NumberValue(o: Option<int>): Value {
    match o
    case Some(n) => Num(n)
    case None => Undefined
  }

  /** Merging the empty options `{}` yields a configuration equal, field for field, to the base. */
  lemma MergeWithoutOptions(base: SignalRConfiguration)
    ensures Merge(base, NoOptions) == base
  {
  }

  /** A `false` override cannot switch off a zone flag the base has on; each flag on its own. */
  lemma FalseOverrideKeepsZoneFlags(base: SignalRConfiguration, overrides: ConnectionOptions)
    ensures overrides.executeEventsInZone == Some(false) ==>
              Merge(base, overrides).executeEventsInZone == base.executeEventsInZone
    ensures overrides.executeErrorsInZone == Some(false) ==>
              Merge(base, overrides).executeErrorsInZone == base.executeErrorsInZone
    ensures overrides.executeStatusChangeInZone == Some(false) ==>
              Merge(base, overrides).executeStatusChangeInZone == base.executeStatusChangeInZone
  {
  }

  /**
   * Over the default configuration, events and status changes run inside
   * the zone whatever the options say, and errors run inside it only when
   * the options ask for it explicitly.
   */
  lemma DefaultZoneFlags(overrides: ConnectionOptions)
    ensures Merge(DefaultConfiguration, overrides).executeEventsInZone
    ensures Merge(DefaultConfiguration, overrides).executeStatusChangeInZone
    ensures Merge(DefaultConfiguration, overrides).executeErrorsInZone <==> overrides.executeErrorsInZone == Some(true)
  {
  }

  /** A ping interval of 0 falls back to the base; over the defaults, to 300000. */
  lemma ZeroPingIntervalFallsBack(base: SignalRConfiguration, overrides: ConnectionOptions)
    requires overrides.pingInterval == Some(0)
    ensures Merge(base, overrides).pingInterval == base.pingInterval
    ensures Merge(DefaultConfiguration, overrides).pingInterval == 300000
  {
  }

  /** The `logging` option is ignored: the level is always the base's. */
  lemma LoggingOverrideIgnored(base: SignalRConfiguration, level: Logging.LogLevel, overrides: ConnectionOptions)
    requires overrides.logging == Some(level) && level != base.logging
    ensures Merge(base, overrides).logging != level
  {
  }

  /** Merging the same options a second time changes nothing. */
  lemma MergeIdempotent(base: SignalRConfiguration, overrides: ConnectionOptions)
    ensures Merge(Merge(base, overrides), overrides) == Merge(base, overrides)
  {
  }

  /** The name of the handler registered so that server callbacks work at all. */
  const NoOpEvent := "noOp"

  class SignalR {
    const configuration: SignalRConfiguration

    constructor(configuration: SignalRConfiguration)
      ensures this.configuration == configuration
    {
      this.configuration := configuration;
    }

    /**
     * `createConnection(options)`: merges the options (absent means `{}`)
     * over the base configuration, builds a hub connection from the merged
     * url, HTTP options and log level, registers the no-op handler on it,
     * and wraps it. The base configuration is a value and is not changed.
     */
    method CreateConnection(options: Option<ConnectionOptions>) returns (c: SignalRConnection)
      ensures fresh(c) && c.Valid()
      ensures c.configuration == Merge(configuration, if options.Some? then options.value else NoOptions)
      ensures c.hub == Build(c.configuration.url, c.configuration.httpConnectionOptions, c.configuration.logging)
                         .On(NoOpEvent, NoOp)
      ensures c.hub.handlers == [Registration(NoOpEvent, NoOp)] && c.hub.calls == []
      ensures c.listeners == map[] && c.statuses == [] && c.errors == [] && c.deliveries == [] && c.runs == []
    {
      var merged := Merge(configuration, if options.Some? then options.value else NoOptions);
      var hub := Build<Callback>(merged.url, merged.httpConnectionOptions, merged.logging);
      hub := hub.On(NoOpEvent, NoOp);
      c := new SignalRConnection(hub, merged);
    }

    /**
     * `connect(options)`: `createConnection(options)` followed by `start()`;
     * the new connection's first status is connecting.
     */
    method Connect(options: Option<ConnectionOptions>, outcome: StartOutcome)
      returns (c: SignalRConnection, p: Settled<SignalRConnection, string>)
      ensures fresh(c) && c.Valid()
      ensures c.configuration == Merge(configuration, if options.Some? then options.value else NoOptions)
      ensures c.hub == Build(c.configuration.url, c.configuration.httpConnectionOptions, c.configuration.logging)
                         .On(NoOpEvent, NoOp).Called(StartCall)
      ensures c.hub.handlers == [Registration(NoOpEvent, NoOp)] && c.hub.calls == [StartCall]
      ensures c.listeners == map[] && c.deliveries == []
      ensures |c.statuses| == 2 && c.statuses[0] == Some(Connecting)
      ensures outcome.Started? ==>
                && c.statuses[1] == Some(Connected)
                && c.errors == [] && c.runs == []
                && p == Resolved(c)
      ensures outcome.StartFailed? ==>
                && c.statuses[1] == Some(Disconnected)
                && c.errors == [outcome.error]
                && c.runs == [RunRecord(ErrorEmission, ZoneFor(c.configuration.executeErrorsInZone))]
                && p == Rejected(ConnectFailureReason(outcome.error))
    {
      c := CreateConnection(options);
      p := c.Start(outcome);
    }
  }
}
