/**
 * The parts of the application's environment configuration the addon's
 * initializers read.
 */
module Configuration {
  import opened JsValues
  import opened Routing

  /** The `'ember-logging-service'` section. */
  datatype AddonConfig = AddonConfig(errorsEnabled: bool, events: Option<Dict<Labels>>)

  /**
   * The configuration object: `environment` (`None` when it is not set)
   * and the addon's section (`None` when it is missing).
   */
  datatype AppConfig = AppConfig(environment: Option<string>, addon: Option<AddonConfig>)

  /**
   * `config.environment` as a value the service can hold: a missing
   * property reads as `undefined`, never as `null`.
   */
  function EnvironmentOf(config: AppConfig): (env: CurrentEnv)
    ensures env != Null
    ensures env == Undefined <==> config.environment.None?
    ensures env.Named? ==> config.environment == Some(env.name)
  {
    match config.environment
    case None => Undefined
    case Some(s) => Named(s)
  }
}
