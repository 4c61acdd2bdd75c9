/**
 * The instance initializer that routes uncaught errors to the logger: it
 * seeds the `error` event, then (outside of tests) installs a handler for
 * Ember's uncaught errors and one for rejected promises. Both convert the
 * error, send it as an `error`-level event and echo it to the console
 * outside of production.
 */
module ErrorMonitoring {
  import opened JsValues
  import opened Routing
  import opened LoggerService
  import opened Configuration

  /** The catalog registered before any handler is installed: `{error: {ERROR: 'Error'}}`. */
  function ErrorSeed(): (seed: Dict<Labels>)
    ensures seed.keys == ["error"]
    ensures seed.entries == map["error" := map["ERROR" := "Error"]]
  {
    JsObject(["error"], map["error" := map["ERROR" := "Error"]])
  }

  /** The addon section is present and `errorsEnabled` is truthy. */
  predicate MonitoringEnabled(config: AppConfig) {
    config.addon.Some? && config.addon.value.errorsEnabled
  }

  /** `logger.events.error.ERROR` exists, so the handlers can look it up. */
  predicate ErrorEventSeeded(events: Catalog) {
    "error" in events && "ERROR" in events["error"]
  }

  // ---------------------------------------------------------------------
  // Converting and filtering errors
  // ---------------------------------------------------------------------

  /** `a || b`, for strings: the empty string is falsy. */
  function OrElse(a: string, b: string): (r: string)
    ensures a != "" ==> r == a
    ensures a == "" ==> r == b
  {
    if a != "" then a else b
  }

  /** A status is copied only when it is truthy, that is, present and not 0. */
  function TruthyStatus(status: Option<int>): (r: Option<int>)
    ensures r.Some? <==> status.Some? && status.value != 0
    ensures r.Some? ==> r == status
  {
    if status.Some? && status.value != 0 then status else None
  }

  /**
   * `convertToError`: a plain object becomes an `Error` whose message is
   * the first non-empty one of `responseText`, `message` and `toString()`,
   * carrying the object's status when it is truthy. Anything else is
   * returned as it is.
   */
  function ConvertToError(e: Thrown): (r: Thrown)
    ensures !e.PlainObject? ==> r == e
    ensures e.PlainObject? ==>
              && r.ErrorInstance? && r.name == "Error" && !r.isAdapterError
              && r.message == OrElse(e.responseText, OrElse(e.message, e.asString))
              && r.status == TruthyStatus(e.status)
    ensures !r.PlainObject?
  {
    match e
    case PlainObject(_, _, responseText, message, status, asString) =>
      ErrorInstance("Error", false, OrElse(responseText, OrElse(message, asString)), TruthyStatus(status))
    case _ => e
  }

  /** Converting is idempotent: what it returns is never converted again. */
  lemma ConvertToErrorIdempotent(e: Thrown)
    ensures ConvertToError(ConvertToError(e)) == ConvertToError(e)
  {
  }

  /**
   * The promise-rejection filter: aborted transitions and adapter errors
   * (which also reach Ember's handler) are dropped; everything else is
   * logged. A primitive has neither property, so it is logged.
   */
  function RsvpForwards(e: Thrown): (forwards: bool)
    ensures e.Primitive? ==> forwards
    ensures !e.Primitive? ==> (forwards <==> e.name != "TransitionAborted" && !e.isAdapterError)
  {
    match e
    case Primitive(_) => true
    case PlainObject(name, isAdapterError, _, _, _, _) => name != "TransitionAborted" && !isAdapterError
    case ErrorInstance(name, isAdapterError, _, _) => name != "TransitionAborted" && !isAdapterError
  }

  /** The metadata of a logged error: `{ error }`. */
  function ErrorMetadata(e: Thrown): Metadata {
    map["error" := Raised(e)]
  }

  /** The console echo: outside of production (or with no environment given), the converted error. */
  function ConsoleEcho(e: Thrown, environment: Option<string>): (echo: Option<Thrown>)
    ensures echo.Some? <==> environment != Some("production")
    ensures echo.Some? ==> echo.value == ConvertToError(e)
  {
    if environment != Some("production") then Some(ConvertToError(e)) else None
  }

  // ---------------------------------------------------------------------
  // The handlers
  // ---------------------------------------------------------------------

  /**
   * `logError(error, logger, environment)`: the converted error goes to the
   * logger, when there is one, as the event `events.error.ERROR` of tag
   * `tags.error` at the error level; `console` is what is written to the
   * console. The logger must hold the seeded error event, as it does once
   * the initializer has run.
   */
  method LogError(error: Thrown, logger: Logger?, environment: Option<string>)
    returns (delivery: Option<Delivery>, console: Option<Thrown>)
    requires logger != null ==> logger.Valid() && ErrorEventSeeded(logger.events)
    ensures logger == null ==> delivery == None
    ensures logger != null ==>
              delivery == Some(Dispatch(logger.consumerMap, logger.callbackMap, logger.applicationContextMap,
                                        logger.userContextMap, Level.Error, "error", logger.events["error"]["ERROR"],
                                        ErrorMetadata(ConvertToError(error))))
    ensures console == ConsoleEcho(error, environment)
  {
    var converted := ConvertToError(error);
    delivery := None;
    if logger != null {
      var tag := logger.tags["error"];
      var d := logger.Error(tag, logger.events["error"]["ERROR"], Some(ErrorMetadata(converted)));
      delivery := Some(d);
    }
    console := if environment != Some("production") then Some(converted) else None;
  }

  /** The function assigned to `Ember.onerror`: no environment is passed, so the console always sees the error. */
  method OnError(error: Thrown, logger: Logger) returns (delivery: Option<Delivery>, console: Option<Thrown>)
    requires logger.Valid() && ErrorEventSeeded(logger.events)
    ensures delivery == Some(Dispatch(logger.consumerMap, logger.callbackMap, logger.applicationContextMap,
                                      logger.userContextMap, Level.Error, "error", logger.events["error"]["ERROR"],
                                      ErrorMetadata(ConvertToError(error))))
    ensures console == Some(ConvertToError(error))
  {
    delivery, console := LogError(error, logger, None);
  }

  /** The listener for RSVP's `error` event. */
  method OnRsvpError(error: Thrown, logger: Logger, config: AppConfig) returns (delivery: Option<Delivery>, console: Option<Thrown>)
    requires logger.Valid() && ErrorEventSeeded(logger.events)
    ensures !RsvpForwards(error) ==> delivery == None && console == None
    ensures RsvpForwards(error) ==>
              && delivery == Some(Dispatch(logger.consumerMap, logger.callbackMap, logger.applicationContextMap,
                                           logger.userContextMap, Level.Error, "error", logger.events["error"]["ERROR"],
                                           ErrorMetadata(ConvertToError(error))))
              && console == ConsoleEcho(error, config.environment)
  {
    if error.PlainObject? || error.ErrorInstance? {
      if error.name == "TransitionAborted" {
        return None, None;
      }
      if error.isAdapterError {
        return None, None;
      }
    }
    delivery, console := LogError(error, logger, config.environment);
  }

  // ---------------------------------------------------------------------
  // The initializer
  // ---------------------------------------------------------------------

  /**
   * `setupErrorMonitoring(instance, config)`, with the logger the instance
   * looks up passed in and `Ember.testing` as `testing`. With monitoring
   * disabled nothing changes; otherwise the error event is seeded, and the
   * handlers are installed (`installed`) unless the application is under
   * test.
   */
  method SetupErrorMonitoring(logger: Logger, config: AppConfig, testing: bool) returns (installed: bool)
    modifies logger
    requires logger.Valid()
    ensures logger.Valid()
    ensures !MonitoringEnabled(config) ==>
              && !installed
              && logger.events == old(logger.events) && logger.tags == old(logger.tags)
              && logger.consumerMap == old(logger.consumerMap)
    ensures MonitoringEnabled(config) ==>
              && installed == !testing
              && logger.events == MergeEvents(old(logger.events), ErrorSeed().entries)
              && logger.tags == AddTagNames(old(logger.tags), ["error"])
              && logger.consumerMap == AddTags(old(logger.consumerMap), ["error"])
              && ErrorEventSeeded(logger.events)
    ensures logger.currentEnvironment == old(logger.currentEnvironment)
    ensures logger.callbackMap == old(logger.callbackMap)
    ensures logger.applicationContextMap == old(logger.applicationContextMap)
    ensures logger.userContextMap == old(logger.userContextMap)
  {
    if !MonitoringEnabled(config) {
      return false;
    }
    logger.RegisterEvents(ErrorSeed());
    MergeEventsEffect(old(logger.events), ErrorSeed().entries, "error", "ERROR");
    if testing {
      return false;
    }
    installed := true;
  }

  /**
   * Registering more events never removes the seeded error event, so the
   * handlers can always look it up.
   */
  lemma SeedSurvivesMerge(events: Catalog, input: Catalog)
    requires ErrorEventSeeded(events)
    ensures ErrorEventSeeded(MergeEvents(events, input))
  {
    MergeEventsEffect(events, input, "error", "ERROR");
  }
}
