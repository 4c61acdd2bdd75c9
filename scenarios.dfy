/**
 * The situations the repository's unit tests set up, replayed on the model:
 * each method builds a new logger, performs the test's calls and ensures
 * what the model then says about the resulting state.
 */
module Scenarios {
  import opened JsValues
  import opened Routing
  import opened LoggerService
  import opened Configuration
  import opened LoggingSetup
  import opened ErrorMonitoring

  /**
   * logger-test.js, "it can register and unregister a consumer": `grover`
   * is registered for `info`/`interaction` with string callbacks (truthy
   * values that are not functions), then unregistered. `listed`,
   * `callback`, `appContexts` and `userContexts` are snapshots taken in
   * between; afterwards every trace of `grover` is gone but the tag stays.
   */
  method RegisterUnregisterScenario() returns (logger: Logger, listed: seq<Id>, callback: Option<Callback<Token>>,
                                               appContexts: Dict<Callback<Ctx>>, userContexts: Dict<Callback<Ctx>>)
    ensures listed == ["grover"]
    ensures callback == Some(Plain(true))
    ensures appContexts.entries == map["grover" := Plain(true)]
    ensures userContexts.entries == map["grover" := Plain(true)]
    ensures forall l :: logger.consumerMap.At(l) == map["interaction" := []]
    ensures "grover" !in logger.callbackMap
    ensures logger.applicationContextMap == EmptyDict() && logger.userContextMap == EmptyDict()
    ensures logger.tags == map["interaction" := "interaction"]
  {
    logger := new Logger();
    logger.SetCurrentEnvironment(Named("test"));
    logger.RegisterConsumer("grover", Plain(true), One("info"), One("interaction"), One(EnvName("test")),
                            Plain(true), Plain(true));
    assert !GuardReturnsEarly([EnvName("test")], Named("test"));
    SingleCellTables("interaction", "grover");
    listed := logger.consumerMap.info["interaction"];
    callback := Some(logger.callbackMap["grover"]);
    appContexts, userContexts := logger.applicationContextMap, logger.userContextMap;
    logger.UnregisterConsumer("grover");
    UnregisterUndoesRegister(InitialTable(), ["info"], ["interaction"], "grover");
    PutThenDelete<Callback<Ctx>>(EmptyDict(), "grover", Plain(true));
    AddTagNamesSingle("interaction");
  }

  /** The tables of a consumer registered for `info` and one tag on a fresh service. */
  lemma SingleCellTables(t: Tag, id: Id)
    ensures AddTags(InitialTable(), [t]) == Table(map[t := []], map[t := []], map[t := []])
    ensures Subscribe(AddTags(InitialTable(), [t]), ["info"], [t], id).info == map[t := [id]]
  {
    var empty: Cells := map[];
    assert AddTagsToCells(empty, [t]) == map[t := []];
    var table := AddTags(InitialTable(), [t]);
    assert table.info == map[t := []];
    assert [t][..0] == [];
    assert SubscribeCells(table.info, [t][..0], id) == table.info;
    assert SubscribeCells(table.info, [t], id) == table.info[t := table.info[t] + [id]];
    assert table.info[t] + [id] == [id];
    assert SubscribeCells(table.info, [t], id) == map[t := [id]];
    assert ["info"][..0] == [];
  }

  /**
   * logger-test.js, "it can register tags": after two calls, every level
   * holds exactly the registered tags, each with no consumer, and each tag
   * constant names itself.
   */
  method RegisterTagsScenario() returns (logger: Logger)
    ensures forall l, t :: t in logger.consumerMap.At(l) <==> t in ["one-tag", "two-tag", "red-tag", "blue-tag", "little-star"]
    ensures forall l, t :: t in logger.consumerMap.At(l) ==> logger.consumerMap.At(l)[t] == []
    ensures forall t :: t in logger.tags <==> t in ["one-tag", "two-tag", "red-tag", "blue-tag", "little-star"]
    ensures forall t :: t in logger.tags ==> logger.tags[t] == t
  {
    logger := new Logger();
    logger.RegisterTags(["one-tag", "two-tag", "red-tag", "blue-tag"]);
    logger.RegisterTags(["little-star"]);
    AddTagsTwice(InitialTable(), map[], ["one-tag", "two-tag", "red-tag", "blue-tag"], ["little-star"]);
    assert ["one-tag", "two-tag", "red-tag", "blue-tag"] + ["little-star"]
        == ["one-tag", "two-tag", "red-tag", "blue-tag", "little-star"];
  }

  /**
   * setup-logging-service-test.js: with the environment `unit-testing` and
   * one configured tag `test` holding `MY_EVENT`, a fresh logger ends up
   * with that environment, that catalog and that tag constant.
   */
  method LoggingSetupScenario() returns (logger: Logger)
    ensures logger.currentEnvironment == Named("unit-testing")
    ensures logger.events == map["test" := map["MY_EVENT" := "my-event"]]
    ensures logger.tags == map["test" := "test"]
  {
    logger := new Logger();
    var input := Put(EmptyDict(), "test", map["MY_EVENT" := "my-event"]);
    var config := AppConfig(Some("unit-testing"), Some(AddonConfig(false, Some(input))));
    SetupLoggingService(logger, config);
    SetupOnFreshLogger(input);
    AddTagNamesSingle("test");
  }

  /**
   * A configuration without `environment` leaves `currentEnvironment`
   * `undefined`, so `undefined >= 0` is false and a consumer whose
   * environment list starts with `false` is not registered.
   */
  method UnsetEnvironmentScenario() returns (logger: Logger)
    ensures logger.currentEnvironment == Undefined
    ensures logger.consumerMap == InitialTable() && logger.tags == map[]
    ensures logger.callbackMap == map[]
  {
    logger := new Logger();
    SetupLoggingService(logger, AppConfig(None, Some(AddonConfig(false, None))));
    assert !IsDigit("x"[0]);
    FlagGate([], "x");
    logger.RegisterConsumer("grover", Plain(true), One("info"), One("interaction"), One(EnvFlag(false)),
                            Plain(true), Plain(true));
  }

  /**
   * setup-error-monitoring-test.js: with monitoring enabled and the
   * application under test, the initializer seeds the error event and its
   * tag on a fresh logger but installs no handler.
   */
  method ErrorMonitoringScenario() returns (logger: Logger, installed: bool)
    ensures !installed
    ensures logger.events == ErrorSeed().entries
    ensures logger.tags == map["error" := "error"]
  {
    logger := new Logger();
    var config := AppConfig(Some("unit-testing"), Some(AddonConfig(true, None)));
    installed := SetupErrorMonitoring(logger, config, true);
    MergeEventsIntoEmpty(ErrorSeed().entries);
    AddTagNamesSingle("error");
  }
}
