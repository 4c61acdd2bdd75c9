/**
 * The instance initializer that configures the logger from the
 * environment configuration: it records the build environment and
 * registers the configured event catalog.
 */
module LoggingSetup {
  import opened JsValues
  import opened Routing
  import opened LoggerService
  import opened Configuration

  /**
   * `setupLoggingService(instance, config)`, with the logger the instance
   * looks up passed in. The addon section must exist: reading `events` of
   * a missing section throws.
   */
  method SetupLoggingService(logger: Logger, config: AppConfig)
    modifies logger
    requires logger.Valid()
    requires config.addon.Some?
    ensures logger.Valid()
    ensures logger.currentEnvironment == EnvironmentOf(config)
    ensures config.addon.value.events.Some? ==>
              var input := config.addon.value.events.value;
              && logger.events == MergeEvents(old(logger.events), input.entries)
              && logger.tags == AddTagNames(old(logger.tags), input.keys)
              && logger.consumerMap == AddTags(old(logger.consumerMap), input.keys)
    ensures config.addon.value.events.None? ==>
              && logger.events == old(logger.events) && logger.tags == old(logger.tags)
              && logger.consumerMap == old(logger.consumerMap)
    ensures logger.callbackMap == old(logger.callbackMap)
    ensures logger.applicationContextMap == old(logger.applicationContextMap)
    ensures logger.userContextMap == old(logger.userContextMap)
  {
    logger.SetCurrentEnvironment(EnvironmentOf(config));
    var addonOptions := config.addon.value;
    if addonOptions.events.Some? {
      logger.RegisterEvents(addonOptions.events.value);
    }
  }

  /**
   * On a logger that has nothing registered, the configured catalog
   * becomes the event catalog as it is, and its tags become the tag
   * constants and the table's tags, each with no consumer.
   */
  lemma SetupOnFreshLogger(input: Dict<Labels>)
    ensures MergeEvents(map[], input.entries) == input.entries
    ensures AddTagNames(map[], input.keys) == map t | t in input.keys :: t
    ensures forall l, t :: t in AddTags(InitialTable(), input.keys).At(l) <==> t in input.keys
    ensures forall l, t :: t in AddTags(InitialTable(), input.keys).At(l) ==> AddTags(InitialTable(), input.keys).At(l)[t] == []
  {
    MergeEventsIntoEmpty(input.entries);
    var empty: map<Tag, Tag> := map[];
    assert AddTagNames(map[], input.keys) == empty + map t | t in input.keys :: t;
  }
}
