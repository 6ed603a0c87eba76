/**
 * The connection configuration (`SignalRConfiguration`) and the per-call
 * options that may override it. Both are plain values: the wrapper keeps a
 * copy of the merged configuration for its whole lifetime.
 */
module Config {
  import opened Wrappers
  import opened Js
  import Logging

  /** A transport, known to the wrapper only by its name. */
  datatype ConnectionTransport = ConnectionTransport(name: string)

  /** The "let the client pick the best transport" setting. */
  const AutoTransport := ConnectionTransport("auto")

  /** `transport` is either one transport or a fallback order of several. */
  datatype TransportSetting = One(transport: ConnectionTransport) | Many(transports: seq<ConnectionTransport>)

  datatype SignalRConfiguration = SignalRConfiguration(
    url: Option<string>,
    qs: Value,
    hubName: Option<string>,
    logging: Logging.LogLevel,
    jsonp: bool,
    withCredentials: bool,
    pingInterval: int,
    transport: TransportSetting,
    executeEventsInZone: bool,
    executeErrorsInZone: bool,
    executeStatusChangeInZone: bool,
    httpConnectionOptions: Value)

  /** What `new SignalRConfiguration()` holds before anyone assigns a field. */
  const DefaultConfiguration := SignalRConfiguration(
    url := None,
    qs := Null,
    hubName := None,
    logging := Logging.Error,
    jsonp := false,
    withCredentials := false,
    pingInterval := 300000,
    transport := One(AutoTransport),
    executeEventsInZone := true,
    executeErrorsInZone := false,
    executeStatusChangeInZone := true,
    httpConnectionOptions := Null)

  /** Per-call options (`IConnectionOptions`): every field may be left out (`None`/`Undefined`). */
  datatype ConnectionOptions = ConnectionOptions(
    url: Option<string>,
    qs: Value,
    hubName: Option<string>,
    logging: Option<Logging.LogLevel>,
    jsonp: Option<bool>,
    withCredentials: Option<bool>,
    pingInterval: Option<int>,
    transport: Option<TransportSetting>,
    executeEventsInZone: Option<bool>,
    executeErrorsInZone: Option<bool>,
    executeStatusChangeInZone: Option<bool>,
    httpConnectionOptions: Value)

  /** The empty options object `{}`. */
  const NoOptions := ConnectionOptions(
    None, Undefined, None, None, None, None, None, None, None, None, None, Undefined)

  /**
   * The defaults the configuration class documents: no url, hub name, query
   * string or HTTP options (all null, hence falsy, so any truthy override
   * replaces them), logging at Error, no JSONP and no credentials, the
   * automatic transport, a ping every 300000 ms, events and status changes
   * inside the zone and errors outside it.
   */
  lemma DefaultsAsDocumented()
    ensures DefaultConfiguration.url == None && DefaultConfiguration.hubName == None
    ensures !Truthy(DefaultConfiguration.qs) && !Truthy(DefaultConfiguration.httpConnectionOptions)
    ensures DefaultConfiguration.logging == Logging.Error
    ensures !DefaultConfiguration.jsonp && !DefaultConfiguration.withCredentials
    ensures DefaultConfiguration.transport == One(AutoTransport) && DefaultConfiguration.pingInterval == 300000
    ensures DefaultConfiguration.executeEventsInZone
    ensures !DefaultConfiguration.executeErrorsInZone
    ensures DefaultConfiguration.executeStatusChangeInZone
  {
  }
}
