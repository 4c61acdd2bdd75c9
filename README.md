# ember-logging-service, modelled in Dafny

This project models the event routing core of the ember-logging-service
addon. The logger service keeps four pieces of state:

- a registry of tags and of named events per tag;
- a consumer table, which maps each (level, tag) cell to the ordered list
  of consumer ids listening there;
- a callback per consumer;
- optional application-context and user-context providers.

`info`, `warning` and `error` send an event to every consumer listed in
the cell for that level and tag. Each consumer gets an event descriptor and
a context built by folding every provider's result. Two instance
initializers feed the service:

- one records the build environment and registers the configured event
  catalog;
- one seeds an `error` event and installs handlers that convert uncaught
  errors and rejected promises, log them at the `error` level, and echo
  them to the console outside of production.

Modules:

- `JsValues` (`js_values.dfy`): the JavaScript values the code inspects.
  These are optional values, insertion-ordered objects used as
  dictionaries (`Dict`, with `Put` and `Delete`), "one value or an array"
  arguments, and thrown values.
- `Routing` (`routing.dfy`): the specification of the service as
  functions on values, with the lemmas about them. It covers:
  - the consumer table (`Table`, one `Cells` map per level);
  - tag registration (`AddTags`, `AddTagNames`);
  - consumer subscription and unsubscription (`Subscribe`, `Unsubscribe`);
  - the event catalog (`MergeEvents`);
  - callback lookup and execution (`Callbacks`, `ExecuteCallback`, `Fanout`);
  - context folding (`MergeProviders`);
  - one whole `_sendEvent` (`Dispatch`);
  - the environment guard of `registerConsumer`.
- `LoggerService` (`logger.dfy`): the service as a `class Logger` whose
  fields are the service's state. Each method updates those fields and is
  proved to produce the state that the matching `Routing` function
  describes. The loops of the source are `while` loops in value-level
  methods (`RegisterTagsAt`, `SubscribeIn`, `UnsubscribeAtLevel`,
  `CollectContext`, …), each proved against its function. `Valid()` is the
  invariant that every method keeps:
  - the three levels hold the same tags, exactly the registered ones;
  - every tag constant names itself;
  - every event tag is a registered tag.
- `Configuration` (`config.dfy`): the configuration records the
  initializers read.
- `LoggingSetup` (`logging_setup.dfy`) and `ErrorMonitoring`
  (`error_monitoring.dfy`): the two instance initializers, and the error
  conversion and filtering functions.
- `Scenarios` (`scenarios.dfy`): the repository's unit-test situations,
  replayed on a fresh `Logger`.

### Where the code does not do what its documentation says

The model follows the code. Its documentation says otherwise in these
places, and the model and its lemmas show what the code does instead:

- **Environment guard** (`addon/services/logger.js:136-138`). The guard
  reads `!environments.indexOf(this.get('currentEnvironment') >= 0)`. It
  passes the *boolean* `currentEnvironment >= 0` to `indexOf`, so the early
  return happens only when that boolean is the first entry:
  - `GuardReturnsEarly` models the guard;
  - `GuardReturnsEarlyIff` states when it returns early;
  - `NamesNeverGate` shows that a list of environment names never stops a
    registration;
  - `OtherEnvironmentNotGated` shows that `['production', 'development']`
    does not stop one while the environment is `test`;
  - `FlagGate` shows which boolean stops a registration: `true` while the
    environment is still `null`, `false` once it is `undefined` or a
    non-numeric name. A configuration without `environment` sets it to
    `undefined` (`EnvironmentOf`), and `UnsetEnvironmentScenario` shows a
    consumer registered with `false` being turned away afterwards.

  So in the test at `tests/unit/services/logger-test.js:59-93`, `snuffy`
  is registered, and because it listens on `interaction`/`info`, its
  callback runs. Three results together show this: the `RegisterConsumer`
  ensures, `RegisteredConsumerListens` and `ListenersRun`.
- **Callback with a scope** (`addon/services/logger.js:375-385`).
  `_executeCallback` tests the type of `callback`, not of the `func` it
  unpacked. A `[fn, scope]` pair therefore never runs: see
  `ExecuteCallback` and its `Pair` case.
- **Unregistration removes one copy** (`addon/services/logger.js:164-179`).
  Unregistering splices only the first copy of the id out of each cell, so
  an id registered twice for one cell stays in it once
  (`DuplicateSurvivesUnsubscribe`). Tags are never unregistered.

## Model

| member | source | states |
|---|---|---|
| JsValues.IndexOf | addon/services/logger.js:170 | `indexOf` yields -1 exactly when the element is absent, otherwise the first index holding it |
| JsValues.Put | addon/services/logger.js:189-191 | assigning a key sets its value; an existing key keeps its place in the key order, a new key is appended |
| JsValues.Delete | addon/services/logger.js:176-178 | `delete` removes the key from both the entries and the key order, keeping the others in order |
| JsValues.PutThenDelete | addon/services/logger.js:176-178 | adding a new key and deleting it gives back the same object, key order included |
| JsValues.DeleteAbsent | addon/services/logger.js:176-178 | deleting a key that is absent leaves the object unchanged |
| JsValues.AsList | addon/services/logger.js:132-134 | a single argument becomes a one-element list; an array is used as it is |
| Routing.LevelIndex | addon/services/logger.js:38-42 | every level occurs in the key order of `levels` |
| Routing.ParseLevel | addon/services/logger.js:142 | a string is a level exactly when it is `info`, `warning` or `error`, and then it names that level |
| Routing.ExecuteCallback | addon/services/logger.js:375-385 | a callback yields a result exactly when it is a bare function; a `[fn, scope]` pair and every other value yield nothing |
| Routing.Table.With | addon/services/logger.js:144 | helper for the writes to one level `map[level]` (the push here, the splice at line 172, the new cell at line 220): replacing one level's cells leaves the other two levels unchanged |
| Routing.TableExt | addon/services/logger.js:165 | helper for the loops over `Object.keys(this._consumerMap)`: two consumer tables with equal cells at every level are equal |
| Routing.InitialTable | addon/services/logger.js:81-91 | `init` gives each of the three levels an empty tag map |
| Routing.AddTagsToCells | addon/services/logger.js:218-221 | every registered tag has a cell at the level |
| Routing.AddTags | addon/services/logger.js:212-228 | each level's cells are that level's old cells with the tags added |
| Routing.AddTagsCells | addon/services/logger.js:219-221 | a tag has a cell exactly when it had one or is being registered; existing cells keep their consumers; new cells are empty |
| Routing.AddTagsRectangular | addon/services/logger.js:212-228 | registering tags keeps every level's tag set equal to the registered tags, and every tag constant names itself |
| Routing.AddTagNames | addon/services/logger.js:222 | definition of the tag constants after `registerTags`: the old constants plus `t: t` for each tag. Its properties are stated by `AddTagNamesSnoc`, `AddTagNamesSingle`, `AddTagNamesIdempotent`, `AddTagNamesTwice` and `AddTagsRectangular` |
| Routing.AddTagsToCellsSnoc | addon/services/logger.js:218-221 | registering one more tag adds an empty cell only when the tag has none |
| Routing.AddTagNamesSnoc | addon/services/logger.js:222 | registering one more tag sets its constant to the tag |
| Routing.AddTagsPrefixStep | addon/services/logger.js:218-223 | one more iteration of the tag loop adds an empty cell when the tag has none and sets its constant to itself |
| Routing.AddTagNamesSingle | addon/services/logger.js:222 | registering one tag on no tags gives the single constant `t: t` |
| Routing.AddTagNamesIdempotent | addon/services/logger.js:222 | registering the same tags again leaves the tag constants unchanged |
| Routing.AddTagsToCellsIdempotent | addon/services/logger.js:219-221 | registering the same tags again leaves a level's cells unchanged |
| Routing.AddTagsIdempotent | addon/services/logger.js:212-228 | `registerTags` is idempotent on both the table and the constants |
| Routing.AddTagsToCellsTwice | addon/services/logger.js:218-221 | registering two lists one after the other equals registering their concatenation |
| Routing.AddTagsTwice | addon/services/logger.js:212-228 | two `registerTags` calls equal one call with the concatenated list, on the table and the constants |
| Routing.AddTagNamesTwice | addon/services/logger.js:222 | the constants after two registrations equal those after registering the concatenation |
| Routing.SubscribeCells | addon/services/logger.js:143-145 | pushing an id onto the cells of some tags adds and removes no tag |
| Routing.Subscribe | addon/services/logger.js:141-147 | subscribing a consumer adds and removes no tag at any level |
| Routing.SubscribeRectangular | addon/services/logger.js:141-147 | subscribing keeps all levels over the registered tag set |
| Routing.SubscribeCellsAt | addon/services/logger.js:143-145 | a cell gets one copy of the id per occurrence of its tag in the list, appended at the end |
| Routing.SubscribeStep | addon/services/logger.js:141-147 | one more level name appends copies of the id only to that level's cells, and only when it names the level |
| Routing.SubscribeCell | addon/services/logger.js:141-147 | cell (l, t) gets the id appended once per pair of an occurrence of l's name in `levels` and an occurrence of t in `tags`; unrecognised level names add nothing |
| Routing.SubscribeCellProduct | addon/services/logger.js:141-147 | the number of appended copies is the product of the two occurrence counts |
| Routing.RemoveFirst | addon/services/logger.js:169-173 | definition of `indexOf` followed by `splice(found, 1)` on one cell. Its properties are stated by `RemoveFirstMultiset`, `RemoveFirstKeepsOthers`, `RemoveFirstEffect` and `RemoveFirstAppended`, and `SpliceFirst` computes it |
| Routing.UnsubscribeCells | addon/services/logger.js:167-174 | definition of one level's cells after unregistering: every cell with its first copy of the id removed. `UnsubscribeCell` and `UnsubscribeCellsUnknown` state its effect |
| Routing.Unsubscribe | addon/services/logger.js:164-175 | definition of the consumer table after `unregisterConsumer`. `UnsubscribeRectangular`, `UnsubscribeAt`, `UnregisterUndoesRegister`, `DuplicateSurvivesUnsubscribe` and `LeftoversAreSilent` state its properties |
| Routing.RemoveFirstMultiset | addon/services/logger.js:169-173 | removing the first copy takes exactly one occurrence of the id out of the cell, when there is one |
| Routing.RemoveFirstKeepsOthers | addon/services/logger.js:169-173 | removing the first copy keeps every other consumer, in order |
| Routing.RemoveFirstEffect | addon/services/logger.js:169-173 | an absent id leaves the cell unchanged; a present one shortens it by one; others keep their order |
| Routing.RemoveFirstAppended | addon/services/logger.js:169-173 | splicing out a consumer that was pushed once onto a cell without it restores the cell |
| Routing.UnsubscribeRectangular | addon/services/logger.js:164-175 | unregistering keeps every level over the same tag set |
| Routing.UnsubscribeAt | addon/services/logger.js:165-175 | unregistering treats each level's cells independently |
| Routing.UnsubscribeCell | addon/services/logger.js:168-174 | each existing cell survives and loses exactly one copy of the id, when it has one |
| Routing.UnsubscribeCellsUnknown | addon/services/logger.js:168-174 | a level where the id is absent is unchanged |
| Routing.UnsubscribeUnknown | addon/services/logger.js:164-175 | unregistering an id that is listed nowhere leaves the table unchanged |
| Routing.SubscribeThenUnsubscribeCell | addon/services/logger.js:141-147 | for distinct levels and distinct tags, unregistering undoes the push onto one cell |
| Routing.SubscribeThenUnsubscribeLevel | addon/services/logger.js:164-175 | for distinct levels and distinct tags, unregistering restores a whole level |
| Routing.SubscribeThenUnsubscribe | addon/services/logger.js:164-175 | for distinct levels and distinct tags, unregistering a new consumer restores the table |
| Routing.AddTagsKeepsAbsent | addon/services/logger.js:219-221 | registering tags lists no id anywhere that was listed nowhere before |
| Routing.UnregisterUndoesRegister | addon/services/logger.js:130-179 | for a new id with distinct levels and tags, unregistering leaves exactly the table with the tags registered: the subscription is undone and the tags stay |
| Routing.DuplicateSurvivesUnsubscribe | addon/services/logger.js:169-173 | a consumer pushed twice onto one cell keeps one copy there after `unregisterConsumer` |
| Routing.LabelsOfExt | addon/services/logger.js:249 | two catalogs with the same tags and the same labels per tag are equal |
| Routing.OnlyStep | addon/services/logger.js:248 | taking one more tag of the input adds just that tag's labels |
| Routing.LabelsOf | addon/services/logger.js:249 | definition of `events[tag] \|\| {}` for a catalog: a tag's labels, or none. `LabelsOfExt` and the `MergeEvents` lemmas use it |
| Routing.MergeEvents | addon/services/logger.js:244-253 | definition of the catalog after `registerEvents`: each input tag's labels assigned onto its existing labels. `MergeEventsKeys`, `MergeEventsLabels`, `MergeEventsEffect`, `MergeEventsTwice`, `MergeEventsDisjoint`, `MergeEventsIntoEmpty` and `SeedSurvivesMerge` state its properties |
| Routing.MergeEventsStep | addon/services/logger.js:248-251 | one more tag of the input assigns its labels onto that tag's existing labels, or onto `{}` |
| Routing.MergeEventsNothing | addon/services/logger.js:244-253 | registering no tags leaves the catalog unchanged |
| Routing.MergeEventsKeys | addon/services/logger.js:244-253 | after `registerEvents` the catalog's tags are the old tags and the input's tags |
| Routing.OnlyAll | addon/services/logger.js:245 | walking all of `Object.keys(events)` covers the whole input |
| Routing.MergeEventsLabels | addon/services/logger.js:249-250 | each tag's labels are its old labels with the input's labels assigned over them |
| Routing.MergeEventsEffect | addon/services/logger.js:249-250 | an event name supplied in the input takes the input's label; any other existing name keeps its label; no name is lost |
| Routing.MergeEventsTwiceAt | addon/services/logger.js:244-253 | one tag's labels after two registrations equal those after registering the merged inputs once |
| Routing.MergeLabelsAssociative | addon/services/logger.js:250 | assigning two label maps in turn equals assigning their union |
| Routing.MergeEventsTwice | addon/services/logger.js:244-253 | two `registerEvents` calls equal one call with the inputs merged |
| Routing.MergeEventsDisjoint | addon/services/logger.js:244-253 | input tags that are all new are added to the catalog as they are |
| Routing.MergeEventsIntoEmpty | addon/services/logger.js:244-253 | registering events on an empty catalog yields the input catalog |
| Routing.Listeners | addon/services/logger.js:331 | definition of `map[level][tag]`, or `[]` when the tag has no cell. `RegisteredConsumerListens`, `OnlyListenersRun` and `ListenersRun` state what it holds |
| Routing.Resolve | addon/services/logger.js:332-334 | definition of `this._callbackMap[consumerId] \|\| null`. `ResolveAll` and `RunAllWithout` state its effect |
| Routing.Callbacks | addon/services/logger.js:329-335 | one entry per listed consumer, in order: its callback when that is truthy, otherwise `null`; a missing cell gives none |
| Routing.ResolveAll | addon/services/logger.js:332-334 | each listed id maps to its stored callback when that is truthy, otherwise `null`, in order |
| Routing.Run | addon/services/logger.js:315-319 | definition of one step of the `forEach`: a non-null entry that is a bare function runs once with the event and context, anything else does not run. `FanoutOrder` and `FanoutSound` state its effect on a list |
| Routing.Fanout | addon/services/logger.js:315-319 | definition of the runs of `callbacks.forEach`, in list order. `FanoutOrder`, `FanoutSound`, `FanoutIsRunAll` and `RunnablePrefix` state its properties |
| Routing.RunnablePrefix | addon/services/logger.js:315-319 | the number of runnable callbacks never falls as the list grows, and rises at each bare function |
| Routing.FanoutOrder | addon/services/logger.js:315-319 | exactly the bare-function callbacks run, in list order, each with the same event and context |
| Routing.FanoutSound | addon/services/logger.js:315-319 | every run comes from a bare-function entry of the callback list |
| Routing.FanoutIsRunAll | addon/services/logger.js:315-319 | running the resolved list equals running each consumer's callback in the cell's order |
| Routing.RunAllSnoc | addon/services/logger.js:315-319 | a consumer appended to a cell runs after all those before it |
| Routing.RunAllWithout | addon/services/logger.js:332-333 | an id with no stored callback contributes no run, wherever it appears in the cell |
| Routing.LeftoversAreSilent | addon/services/logger.js:164-179 | an unregistered id that is still listed in a cell causes no call |
| Routing.Assign | addon/services/logger.js:347 | definition of `Ember.assign(context, result)`: the result's keys overwrite the context's, and a provider that yields nothing adds nothing. `MergeProvidersLastWins` states its effect over a fold |
| Routing.MergeProviders | addon/services/logger.js:342-363 | definition of the left fold of the providers in key order. `MergeProvidersLastWins` states which provider each key comes from, and `CollectContext` computes it |
| Routing.MergeProvidersLastWins | addon/services/logger.js:342-363 | the context has a key exactly when some function provider returns it, and then it holds the value from the last such provider in key order |
| Routing.Dispatch | addon/services/logger.js:300-320 | definition of what `_sendEvent` delivers. `DispatchEffect`, `OnlyListenersRun` and `ListenersRun` state its properties, and `Logger.SendEvent` ensures it |
| Routing.DispatchEffect | addon/services/logger.js:300-320 | delivery is skipped exactly when the cell is missing or empty; otherwise the context is built from both provider maps and every run gets the event `{name, type: tag, level, metadata}` and that context |
| Routing.OnlyListenersRun | addon/services/logger.js:300-335 | every run belongs to a consumer listed in the cell whose stored callback is a bare function |
| Routing.ListenersRun | addon/services/logger.js:300-335 | every listed consumer whose stored callback is a bare function runs with the event |
| Routing.RegisteredConsumerListens | addon/services/logger.js:140-147 | after registration, the consumer is listed for every recognised level and tag it named |
| Routing.AtLeastZero | addon/services/logger.js:136 | definition of `currentEnvironment >= 0`: true for `null`, false for `undefined`, and true for a string exactly when it is empty or all decimal digits. `FlagGate` states the cases the guard depends on |
| Routing.GuardReturnsEarly | addon/services/logger.js:136-138 | definition of the early return of `registerConsumer`. `GuardReturnsEarlyIff`, `NamesNeverGate`, `FlagGate` and `OtherEnvironmentNotGated` state its properties, and `Logger.RegisterConsumer` uses it |
| Routing.GuardReturnsEarlyIff | addon/services/logger.js:136-138 | `registerConsumer` returns early exactly when the first environment entry is the boolean `currentEnvironment >= 0` |
| Routing.NamesNeverGate | addon/services/logger.js:136-138 | a list of environment names never makes `registerConsumer` return early |
| Routing.OtherEnvironmentNotGated | addon/services/logger.js:136-138 | registering for `['production', 'development']` in environment `test` is not stopped |
| Routing.FlagGate | addon/services/logger.js:136-138 | a leading `true` stops registration while the environment is `null` and `false` does not; with `undefined` it is the other way round; with a non-numeric name a leading `false` stops it |
| LoggerService.CollectContext | addon/services/logger.js:342-363 | the loop over `Object.keys` of a provider map computes the left fold of `Object.assign` |
| LoggerService.RegisterTagsAt | addon/services/logger.js:218-223 | the loop over the tags at one level adds the missing cells and the tag constants |
| LoggerService.RegisterTagsIn | addon/services/logger.js:212-228 | the loop over the levels registers the tags at every level |
| LoggerService.SubscribeAt | addon/services/logger.js:143-145 | the loop over the tags pushes the id onto each tag's cell |
| LoggerService.SubscribeIn | addon/services/logger.js:141-147 | the loop over the level names subscribes at each recognised level and skips the others |
| LoggerService.SpliceFirst | addon/services/logger.js:169-173 | `indexOf` followed by `splice(found, 1)` removes exactly the first copy of the id, and changes nothing when there is none |
| LoggerService.UnsubscribeAtLevel | addon/services/logger.js:167-174 | the loop over a level's tags removes the first copy of the id from every cell |
| LoggerService.UnsubscribeIn | addon/services/logger.js:165-175 | the loop over the levels unregisters at every level |
| LoggerService.MergeEventsIn | addon/services/logger.js:248-251 | the loop over the input's tags assigns each tag's labels onto the catalog |
| LoggerService.Logger.constructor | addon/services/logger.js:81-91 | a new service has the environment `null`, no tags, events, callbacks or providers, and an empty tag map per level; the invariant holds |
| LoggerService.Logger.SetCurrentEnvironment | addon/instance-initializers/setup-logging-service.js:6 | sets the environment; nothing else changes |
| LoggerService.Logger.RegisterTags | addon/services/logger.js:212-228 | the table and the tag constants gain the tags; the rest is unchanged; the invariant holds |
| LoggerService.Logger.RegisterEvents | addon/services/logger.js:244-253 | the input's tags are registered and its labels assigned onto the catalog; the rest is unchanged |
| LoggerService.Logger.RegisterApplicationContextCallback | addon/services/logger.js:189-191 | the provider is stored under the id; the rest is unchanged |
| LoggerService.Logger.RegisterUserContextCallback | addon/services/logger.js:201-203 | the provider is stored under the id; the rest is unchanged |
| LoggerService.Logger.RegisterConsumer | addon/services/logger.js:130-156 | if the environment guard returns early, nothing changes; otherwise the tags are registered, the consumer is subscribed, its callback is stored, and each provider is stored only if it is truthy |
| LoggerService.Logger.UnregisterConsumer | addon/services/logger.js:164-179 | every cell loses its first copy of the id; the callback and both providers under the id are deleted; tags and events stay |
| LoggerService.Logger.ApplicationContext | addon/services/logger.js:342-349 | the application context is the fold of the application providers in key order |
| LoggerService.Logger.UserContext | addon/services/logger.js:356-363 | the user context is the fold of the user providers in key order |
| LoggerService.Logger.SendEvent | addon/services/logger.js:300-320 | the delivery is the one `Dispatch` describes for the current state |
| LoggerService.Logger.Info | addon/services/logger.js:263-265 | sends at the `info` level; missing event data becomes `{}` |
| LoggerService.Logger.Warning | addon/services/logger.js:275-277 | sends at the `warning` level; missing event data becomes `{}` |
| LoggerService.Logger.Error | addon/services/logger.js:287-289 | sends at the `error` level; missing event data becomes `{}` |
| ErrorMonitoring.MonitoringEnabled | addon/instance-initializers/setup-error-monitoring.js:10-13 | definition of the gate: the addon section exists and `errorsEnabled` is truthy. `SetupErrorMonitoring` ensures that nothing changes when it is false |
| ErrorMonitoring.ErrorSeed | addon/instance-initializers/setup-error-monitoring.js:15-19 | the seeded catalog is `{error: {ERROR: 'Error'}}` |
| ErrorMonitoring.OrElse | addon/instance-initializers/setup-error-monitoring.js:54 | the or-operator on two strings picks the first one unless it is empty |
| ErrorMonitoring.TruthyStatus | addon/instance-initializers/setup-error-monitoring.js:55-59 | the status is copied exactly when it is present and non-zero |
| ErrorMonitoring.ConvertToError | addon/instance-initializers/setup-error-monitoring.js:52-62 | an object becomes an `Error` whose message is `responseText`, `message` or `toString()` (the first non-empty one), with its truthy status; anything else is unchanged; no object is returned |
| ErrorMonitoring.ConvertToErrorIdempotent | addon/instance-initializers/setup-error-monitoring.js:52-62 | converting a converted error changes nothing |
| ErrorMonitoring.RsvpForwards | addon/instance-initializers/setup-error-monitoring.js:32-39 | a rejection is logged exactly when it is not an aborted transition and not an adapter error |
| ErrorMonitoring.ErrorMetadata | addon/instance-initializers/setup-error-monitoring.js:76 | definition of the metadata `{ error }` sent with an error event. `LogError` ensures it is what gets dispatched |
| ErrorMonitoring.ConsoleEcho | addon/instance-initializers/setup-error-monitoring.js:78-86 | the converted error is written to the console exactly when the environment is not `production` |
| ErrorMonitoring.LogError | addon/instance-initializers/setup-error-monitoring.js:72-88 | with a logger, the converted error is dispatched as `events.error.ERROR` of tag `error` at the `error` level with metadata `{error}`; without one, nothing is dispatched; the console echo never depends on the logger |
| ErrorMonitoring.OnError | addon/instance-initializers/setup-error-monitoring.js:25-27 | the `Ember.onerror` handler logs the error and always writes it to the console |
| ErrorMonitoring.OnRsvpError | addon/instance-initializers/setup-error-monitoring.js:29-42 | filtered rejections cause neither dispatch nor console output; the others are logged with the configured environment |
| ErrorMonitoring.SetupErrorMonitoring | addon/instance-initializers/setup-error-monitoring.js:9-43 | with monitoring disabled nothing changes; otherwise the error event is seeded and the handlers are installed unless under test; the invariant holds |
| ErrorMonitoring.SeedSurvivesMerge | addon/instance-initializers/setup-error-monitoring.js:76 | later event registrations never remove `events.error.ERROR` |
| Configuration.EnvironmentOf | addon/instance-initializers/setup-logging-service.js:6 | reading `config.environment` gives `undefined` when the property is missing and the string when it is set, never `null` |
| LoggingSetup.SetupLoggingService | addon/instance-initializers/setup-logging-service.js:3-12 | the environment is set from the configuration, `undefined` when it has none; the configured events, when present, are registered; nothing else changes |
| LoggingSetup.SetupOnFreshLogger | addon/instance-initializers/setup-logging-service.js:8-11 | on a fresh service the configured catalog becomes the catalog, its tags the constants and the table's tags, each cell empty |
| Scenarios.RegisterUnregisterScenario | tests/unit/services/logger-test.js:39-57 | `grover` is listed, its callback and providers are stored, and after unregistering all of them are gone but the tag stays |
| Scenarios.RegisterTagsScenario | tests/unit/services/logger-test.js:95-137 | after two registrations every level has exactly the five tags with empty cells, and the constants name themselves |
| Scenarios.LoggingSetupScenario | tests/unit/instance-initializers/setup-logging-service-test.js:7-32 | the environment is `unit-testing`, the catalog is the configured one and the tag constants are `{test: 'test'}` |
| Scenarios.UnsetEnvironmentScenario | addon/services/logger.js:136-138 | after a setup without `environment`, a consumer registered with `false` is not registered: the table, the constants and the callbacks stay empty |
| Scenarios.ErrorMonitoringScenario | tests/unit/instance-initializers/setup-error-monitoring-test.js:10-30 | under test, the catalog is `{error: {ERROR: 'Error'}}`, the constants are `{error: 'error'}` and no handler is installed |

## Left out

- Ember's machinery is not modelled: `Ember.Service.extend`, `this.get`/`this.set`, `instance.lookup` and destruction. The service object is passed to the initializers directly.
- Installing `Ember.onerror` and the RSVP listener is modelled as the `installed` result. The handlers are the separate methods `OnError` and `OnRsvpError`.
- Writing to `console.error`/`console.log` is modelled as the returned `console` value.
- What a consumer's callback or a context provider does when it runs is not modelled. It becomes an opaque token, or a returned context, and the model does not capture its side effects, its `this` binding or exceptions it throws.
- The service declares `events`, `tags`, `_callbackMap` and the context maps as object literals on the prototype, so all instances share them. The model gives each `Logger` its own empty state, which is what the first instance sees.
- `Object.keys` lists integer-like keys first, in numeric order. The model uses insertion order for every key.
- Keys that collide with `Object.prototype` properties (for example `hasOwnProperty`) are not modelled.
- Levels and tags are modelled as strings only. Non-string values passed as a level, a tag or an environment (other than the boolean entry the environment guard compares with) are not modelled.
- AtLeastZero: models `currentEnvironment >= 0` for `null`, `undefined` and strings. Only the empty string and all-digit strings count as numeric. JavaScript also reads these strings as non-negative numbers, and the model treats them as NaN: hexadecimal, octal and binary literals (`"0x1F"`), exponents (`"1e3"`), decimals (`"1.5"`), a leading `+` or `-0`, `"Infinity"`, and strings with surrounding whitespace.
- Truthiness and `Ember.typeOf` are modelled only as far as the code observes them. A stored callback is a bare function, a `[fn, scope]` array, or another value that is truthy or falsy (`Callback`). A thrown value is an 'object', an 'error' or a primitive (`Thrown`).
- Throwing `null` or `undefined` (where reading `error.name` throws again) is not modelled.
- A context provider that returns a non-object is not modelled. Nor is one that returns `undefined` other than by not being a function.
- The `enabled` option of the configuration is not modelled: no code reads it.
- LoggingSetup.SetupLoggingService: requires the addon section to be present. Without it the source throws a `TypeError` while reading `events`, and that failure is not modelled.
- ErrorMonitoring.LogError: requires the logger to hold `events.error.ERROR`, so two behaviours of the source are not modelled. When `events.error` is missing, reading `events.error.ERROR` throws a `TypeError`. When `events.error` exists without `ERROR`, the source sends an error event whose name is `undefined`. `SeedSurvivesMerge` and the `SetupErrorMonitoring` ensures show that the requirement holds once the initializer has run.
- The test "it can register events" (`tests/unit/services/logger-test.js:139-186`) is covered only by the general lemmas `MergeEventsTwice`, `MergeEventsIntoEmpty`, `MergeEventsDisjoint` and `AddTagsTwice`, not by a scenario with its string constants.
- The test "it can execute a callback" (`tests/unit/services/logger-test.js:59-93`) is likewise covered only by the general dispatch lemmas (`DispatchEffect`, `OnlyListenersRun`, `ListenersRun`, `RegisteredConsumerListens`, `MergeProvidersLastWins`) and by the environment-guard lemmas.
