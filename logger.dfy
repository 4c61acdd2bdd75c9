/**
 * The logger service: one object holding the tag catalog, the event
 * catalog, the consumer table and the callback and context-provider maps,
 * with the operations that update them in place and the three event
 * methods. Each method is proved to leave the state the corresponding
 * function of Routing describes.
 */
module LoggerService {
  import opened JsValues
  import opened Routing

  // ---------------------------------------------------------------------
  // The loops of the service's methods, on the values they update
  // ---------------------------------------------------------------------

  /** `_getApplicationContext` / `_getUserContext`: assign each provider's result, in key order. */
  method CollectContext(providers: Dict<Callback<Ctx>>) returns (context: Ctx)
    ensures context == MergeProviders(providers.keys, providers.entries)
  {
    context := map[];
    var ids := providers.keys;
    for i := 0 to |ids|
      invariant context == MergeProviders(ids[..i], providers.entries)
    {
      assert ids[..i + 1][..i] == ids[..i];
      context := Assign(context, ExecuteCallback(providers.entries[ids[i]]));
    }
    assert ids[..|ids|] == ids;
  }

  /** The inner loop of `registerTags` for one level. */
  method RegisterTagsAt(cells: Cells, names: map<Tag, Tag>, ts: seq<Tag>) returns (cells': Cells, names': map<Tag, Tag>)
    ensures cells' == AddTagsToCells(cells, ts)
    ensures names' == AddTagNames(names, ts)
  {
    cells', names' := cells, names;
    for k := 0 to |ts|
      invariant cells' == AddTagsToCells(cells, ts[..k])
      invariant names' == AddTagNames(names, ts[..k])
    {
      var tag := ts[k];
      AddTagsPrefixStep(cells, names, ts, k);
      if tag !in cells' {
        cells' := cells'[tag := []];
      }
      names' := names'[tag := tag];
    }
    assert ts[..|ts|] == ts;
  }

  /**
   * The loops of `registerTags`. Every level passes the `hasOwnProperty`
   * test, since the loop runs over the keys of `this.levels` itself.
   */
  method RegisterTagsIn(table: Table, names: map<Tag, Tag>, ts: seq<Tag>) returns (table': Table, names': map<Tag, Tag>)
    ensures table' == AddTags(table, ts)
    ensures names' == AddTagNames(names, ts)
  {
    table', names' := table, names;
    for i := 0 to |AllLevels|
      invariant forall l :: table'.At(l) == if LevelIndex(l) < i then AddTagsToCells(table.At(l), ts) else table.At(l)
      invariant names' == if i == 0 then names else AddTagNames(names, ts)
    {
      var level := AllLevels[i];
      assert LevelIndex(level) == i;
      var cells, n := RegisterTagsAt(table'.At(level), names', ts);
      if i > 0 {
        AddTagNamesIdempotent(names, ts);
      }
      table' := table'.With(level, cells);
      names' := n;
    }
    TableExt(table', AddTags(table, ts));
  }

  /** The inner loop of `registerConsumer` for one level. */
  method SubscribeAt(cells: Cells, ts: seq<Tag>, id: Id) returns (cells': Cells)
    requires forall t :: t in ts ==> t in cells
    ensures cells' == SubscribeCells(cells, ts, id)
  {
    cells' := cells;
    for k := 0 to |ts|
      invariant cells' == SubscribeCells(cells, ts[..k], id)
    {
      assert ts[..k + 1][..k] == ts[..k];
      var tag := ts[k];
      cells' := cells'[tag := cells'[tag] + [id]];
    }
    assert ts[..|ts|] == ts;
  }

  /** The loops of `registerConsumer`: level names the service does not know are skipped. */
  method SubscribeIn(table: Table, levels: seq<string>, ts: seq<Tag>, id: Id) returns (table': Table)
    requires forall l, t :: t in ts ==> t in table.At(l)
    ensures table' == Subscribe(table, levels, ts, id)
  {
    table' := table;
    for i := 0 to |levels|
      invariant table' == Subscribe(table, levels[..i], ts, id)
    {
      assert levels[..i + 1][..i] == levels[..i];
      match ParseLevel(levels[i]) {
        case None =>
        case Some(level) =>
          var cells := SubscribeAt(table'.At(level), ts, id);
          table' := table'.With(level, cells);
      }
    }
    assert levels[..|levels|] == levels;
  }

  /** `let found = consumers.indexOf(id); if (found >= 0) consumers.splice(found, 1);` */
  method SpliceFirst(consumers: seq<Id>, id: Id) returns (r: seq<Id>)
    ensures r == RemoveFirst(consumers, id)
  {
    r := consumers;
    var found := IndexOf(consumers, id);
    if found >= 0 {
      r := consumers[..found] + consumers[found + 1..];
    }
  }

  /** A level part-way through `unregisterConsumer`: the tags in `todo` are not yet visited. */
  ghost function PartlyUnsubscribed(cells: Cells, id: Id, todo: set<Tag>): Cells {
    map t | t in cells :: if t in todo then cells[t] else RemoveFirst(cells[t], id)
  }

  lemma PartlyUnsubscribedStart(cells: Cells, id: Id)
    ensures PartlyUnsubscribed(cells, id, cells.Keys) == cells
  {
  }

  lemma PartlyUnsubscribedStep(cells: Cells, id: Id, todo: set<Tag>, tag: Tag)
    requires tag in todo && tag in cells
    ensures tag in PartlyUnsubscribed(cells, id, todo) && PartlyUnsubscribed(cells, id, todo)[tag] == cells[tag]
    ensures PartlyUnsubscribed(cells, id, todo - {tag})
         == PartlyUnsubscribed(cells, id, todo)[tag := RemoveFirst(cells[tag], id)]
  {
    var a := PartlyUnsubscribed(cells, id, todo - {tag});
    var b := PartlyUnsubscribed(cells, id, todo)[tag := RemoveFirst(cells[tag], id)];
    assert a.Keys == b.Keys;
    forall t | t in a ensures a[t] == b[t] {
    }
  }

  lemma PartlyUnsubscribedDone(cells: Cells, id: Id)
    ensures PartlyUnsubscribed(cells, id, {}) == UnsubscribeCells(cells, id)
  {
  }

  /**
   * The inner loop of `unregisterConsumer` for one level: each tag's list
   * loses its first copy of `id`. The tags are visited in an unspecified
   * order, which does not affect the result.
   */
  method UnsubscribeAtLevel(cells: Cells, id: Id) returns (r: Cells)
    ensures r == UnsubscribeCells(cells, id)
  {
    r := cells;
    var todo := cells.Keys;
    PartlyUnsubscribedStart(cells, id);
    while todo != {}
      invariant todo <= cells.Keys
      invariant r == PartlyUnsubscribed(cells, id, todo)
      decreases todo
    {
      var tag :| tag in todo;
      PartlyUnsubscribedStep(cells, id, todo, tag);
      var consumers := SpliceFirst(r[tag], id);
      r := r[tag := consumers];
      todo := todo - {tag};
    }
    PartlyUnsubscribedDone(cells, id);
  }

  /** The loops of `unregisterConsumer` over the levels of `_consumerMap`. */
  method UnsubscribeIn(table: Table, id: Id) returns (table': Table)
    ensures table' == Unsubscribe(table, id)
  {
    table' := table;
    for i := 0 to |AllLevels|
      invariant forall l :: table'.At(l) == if LevelIndex(l) < i then UnsubscribeCells(table.At(l), id) else table.At(l)
    {
      var level := AllLevels[i];
      assert LevelIndex(level) == i;
      var cells := UnsubscribeAtLevel(table'.At(level), id);
      table' := table'.With(level, cells);
    }
    forall l ensures table'.At(l) == Unsubscribe(table, id).At(l) {
      UnsubscribeAt(table, id, l);
    }
    TableExt(table', Unsubscribe(table, id));
  }

  /** The loop of `registerEvents`: `logEvents[tag] = assign(logEvents[tag] || {}, input[tag])`. */
  method MergeEventsIn(events: Catalog, input: Dict<Labels>) returns (r: Catalog)
    ensures r == MergeEvents(events, input.entries)
  {
    var ts := input.keys;
    r := events;
    MergeEventsNothing(events, input.entries);
    for i := 0 to |ts|
      invariant r == MergeEvents(events, Only(input.entries, ts[..i]))
    {
      var tag := ts[i];
      assert ts[..i + 1] == ts[..i] + [tag];
      assert tag !in ts[..i];
      MergeEventsStep(events, input.entries, ts[..i], tag);
      r := r[tag := LabelsOf(r, tag) + input.entries[tag]];
    }
    assert ts[..|ts|] == ts;
    OnlyAll(input.entries, ts);
  }

  class Logger {
    /** `currentEnvironment`: `null` until it is set. */
    var currentEnvironment: CurrentEnv
    /** `tags`: tag name -> tag name. */
    var tags: map<Tag, Tag>
    /** `events`: tag -> machine name -> label. */
    var events: Catalog
    /** `_consumerMap` */
    var consumerMap: Table
    /** `_callbackMap` */
    var callbackMap: map<Id, Callback<Token>>
    /** `_applicationContextMap`, in key order. */
    var applicationContextMap: Dict<Callback<Ctx>>
    /** `_userContextMap`, in key order. */
    var userContextMap: Dict<Callback<Ctx>>

    /**
     * What every operation keeps: each level of the table lists exactly the
     * registered tags, each tag constant names itself, and every tag of the
     * event catalog is registered.
     */
    ghost predicate Valid()
      reads this
    {
      && Rectangular(consumerMap, tags.Keys)
      && SelfNamed(tags)
      && events.Keys <= tags.Keys
    }

    /** `init`: the three levels with no tags, and every map empty. */
    constructor ()
      ensures Valid()
      ensures currentEnvironment == Null
      ensures tags == map[] && events == map[]
      ensures consumerMap == InitialTable()
      ensures callbackMap == map[]
      ensures applicationContextMap == EmptyDict() && userContextMap == EmptyDict()
    {
      currentEnvironment := Null;
      tags := map[];
      events := map[];
      consumerMap := InitialTable();
      callbackMap := map[];
      applicationContextMap := EmptyDict();
      userContextMap := EmptyDict();
    }

    /** `this.set('currentEnvironment', env)` */
    method SetCurrentEnvironment(env: CurrentEnv)
      modifies this
      requires Valid()
      ensures Valid()
      ensures currentEnvironment == env
      ensures tags == old(tags) && events == old(events) && consumerMap == old(consumerMap)
      ensures callbackMap == old(callbackMap)
      ensures applicationContextMap == old(applicationContextMap) && userContextMap == old(userContextMap)
    {
      currentEnvironment := env;
    }

    /**
     * `registerTags(ts)`: for each level, every tag of ts without a cell gets
     * `[]`, and every tag of ts becomes a tag constant.
     */
    method RegisterTags(ts: seq<Tag>)
      modifies this
      requires Valid()
      ensures Valid()
      ensures consumerMap == AddTags(old(consumerMap), ts)
      ensures tags == AddTagNames(old(tags), ts)
      ensures events == old(events) && currentEnvironment == old(currentEnvironment)
      ensures callbackMap == old(callbackMap)
      ensures applicationContextMap == old(applicationContextMap) && userContextMap == old(userContextMap)
    {
      var table, names := RegisterTagsIn(consumerMap, tags, ts);
      AddTagsRectangular(consumerMap, tags, ts);
      consumerMap := table;
      tags := names;
    }

    /**
     * `registerEvents(input)`: the input's tags are registered, then each
     * tag's labels are assigned onto the catalog's (or onto `{}`).
     */
    method RegisterEvents(input: Dict<Labels>)
      modifies this
      requires Valid()
      ensures Valid()
      ensures tags == AddTagNames(old(tags), input.keys)
      ensures consumerMap == AddTags(old(consumerMap), input.keys)
      ensures events == MergeEvents(old(events), input.entries)
      ensures currentEnvironment == old(currentEnvironment) && callbackMap == old(callbackMap)
      ensures applicationContextMap == old(applicationContextMap) && userContextMap == old(userContextMap)
    {
      RegisterTags(input.keys);
      var logEvents := MergeEventsIn(events, input);
      MergeEventsKeys(events, input.entries);
      AddTagsRectangular(old(consumerMap), old(tags), input.keys);
      events := logEvents;
    }

    /** `registerApplicationContextCallback(id, callback)` */
    method RegisterApplicationContextCallback(id: string, callback: Callback<Ctx>)
      modifies this
      requires Valid()
      ensures Valid()
      ensures applicationContextMap == Put(old(applicationContextMap), id, callback)
      ensures currentEnvironment == old(currentEnvironment) && tags == old(tags) && events == old(events)
      ensures consumerMap == old(consumerMap) && callbackMap == old(callbackMap)
      ensures userContextMap == old(userContextMap)
    {
      applicationContextMap := Put(applicationContextMap, id, callback);
    }

    /** `registerUserContextCallback(id, callback)` */
    method RegisterUserContextCallback(id: string, callback: Callback<Ctx>)
      modifies this
      requires Valid()
      ensures Valid()
      ensures userContextMap == Put(old(userContextMap), id, callback)
      ensures currentEnvironment == old(currentEnvironment) && tags == old(tags) && events == old(events)
      ensures consumerMap == old(consumerMap) && callbackMap == old(callbackMap)
      ensures applicationContextMap == old(applicationContextMap)
    {
      userContextMap := Put(userContextMap, id, callback);
    }

    /**
     * `registerConsumer(id, callback, levels, tags, environments,
     * applicationContext, userContext)`. Unless the environment guard
     * returns early, the tags are registered, `id` is pushed onto cell
     * (l, t) for each recognised level name l and each tag t, the callback
     * is stored, and each context provider is stored when it is truthy.
     */
    method RegisterConsumer(id: Id, callback: Callback<Token>, levels: Arg<string>, ts: Arg<Tag>,
                            environments: Arg<EnvEntry>, applicationContext: Callback<Ctx>,
                            userContext: Callback<Ctx>)
      modifies this
      requires Valid()
      ensures Valid()
      ensures GuardReturnsEarly(AsList(environments), old(currentEnvironment)) ==>
                && tags == old(tags) && consumerMap == old(consumerMap) && callbackMap == old(callbackMap)
                && applicationContextMap == old(applicationContextMap) && userContextMap == old(userContextMap)
      ensures !GuardReturnsEarly(AsList(environments), old(currentEnvironment)) ==>
                && tags == AddTagNames(old(tags), AsList(ts))
                && consumerMap == Subscribe(AddTags(old(consumerMap), AsList(ts)), AsList(levels), AsList(ts), id)
                && callbackMap == old(callbackMap)[id := callback]
                && applicationContextMap == (if Truthy(applicationContext)
                                             then Put(old(applicationContextMap), id, applicationContext)
                                             else old(applicationContextMap))
                && userContextMap == (if Truthy(userContext)
                                      then Put(old(userContextMap), id, userContext)
                                      else old(userContextMap))
      ensures currentEnvironment == old(currentEnvironment) && events == old(events)
    {
      var envs := AsList(environments);
      if IndexOf(envs, EnvFlag(AtLeastZero(currentEnvironment))) == 0 {
        return;
      }
      var tagList := AsList(ts);
      RegisterTags(tagList);
      var table := SubscribeIn(consumerMap, AsList(levels), tagList, id);
      SubscribeRectangular(consumerMap, tags.Keys, AsList(levels), tagList, id);
      consumerMap := table;
      callbackMap := callbackMap[id := callback];
      if Truthy(applicationContext) {
        RegisterApplicationContextCallback(id, applicationContext);
      }
      if Truthy(userContext) {
        RegisterUserContextCallback(id, userContext);
      }
    }

    /**
     * `unregisterConsumer(id)`: every cell loses its first copy of `id`,
     * and the callback and both context providers stored under `id` are
     * deleted. Tags stay registered.
     */
    method UnregisterConsumer(id: Id)
      modifies this
      requires Valid()
      ensures Valid()
      ensures consumerMap == Unsubscribe(old(consumerMap), id)
      ensures callbackMap == old(callbackMap) - {id}
      ensures applicationContextMap == Delete(old(applicationContextMap), id)
      ensures userContextMap == Delete(old(userContextMap), id)
      ensures currentEnvironment == old(currentEnvironment) && tags == old(tags) && events == old(events)
    {
      var table := UnsubscribeIn(consumerMap, id);
      UnsubscribeRectangular(consumerMap, tags.Keys, id);
      consumerMap := table;
      callbackMap := callbackMap - {id};
      applicationContextMap := Delete(applicationContextMap, id);
      userContextMap := Delete(userContextMap, id);
    }

    /** `_getApplicationContext()` */
    method ApplicationContext() returns (context: Ctx)
      ensures context == MergeProviders(applicationContextMap.keys, applicationContextMap.entries)
    {
      context := CollectContext(applicationContextMap);
    }

    /** `_getUserContext()` */
    method UserContext() returns (context: Ctx)
      ensures context == MergeProviders(userContextMap.keys, userContextMap.entries)
    {
      context := CollectContext(userContextMap);
    }

    /**
     * `_sendEvent(level, tag, name, metadata)`: nothing happens when no
     * consumer listens; otherwise both contexts are built once and every
     * listener that is a bare function runs with the event and the context.
     */
    method SendEvent(level: Level, tag: Tag, name: string, metadata: Metadata) returns (d: Delivery)
      ensures d == Dispatch(consumerMap, callbackMap, applicationContextMap, userContextMap, level, tag, name, metadata)
    {
      var callbacks := Callbacks(consumerMap, callbackMap, level, tag);
      if |callbacks| == 0 {
        return Skipped;
      }
      var event := Event(name, tag, level, metadata);
      var application := ApplicationContext();
      var user := UserContext();
      var context := Context(application, user);
      var calls := [];
      for i := 0 to |callbacks|
        invariant calls == Fanout(callbacks[..i], event, context)
      {
        assert callbacks[..i + 1][..i] == callbacks[..i];
        calls := calls + Run(callbacks[i], event, context);
      }
      assert callbacks[..|callbacks|] == callbacks;
      d := Delivered(context, calls);
    }

    /** `info(tag, name, eventData = {})` */
    method Info(tag: Tag, name: string, eventData: Option<Metadata>) returns (d: Delivery)
      ensures d == Dispatch(consumerMap, callbackMap, applicationContextMap, userContextMap,
                            Level.Info, tag, name, eventData.GetOr(map[]))
    {
      d := SendEvent(Level.Info, tag, name, eventData.GetOr(map[]));
    }

    /** `warning(tag, name, eventData = {})` */
    method Warning(tag: Tag, name: string, eventData: Option<Metadata>) returns (d: Delivery)
      ensures d == Dispatch(consumerMap, callbackMap, applicationContextMap, userContextMap,
                            Level.Warning, tag, name, eventData.GetOr(map[]))
    {
      d := SendEvent(Level.Warning, tag, name, eventData.GetOr(map[]));
    }

    /** `error(tag, name, eventData = {})` */
    method Error(tag: Tag, name: string, eventData: Option<Metadata>) returns (d: Delivery)
      ensures d == Dispatch(consumerMap, callbackMap, applicationContextMap, userContextMap,
                            Level.Error, tag, name, eventData.GetOr(map[]))
    {
      d := SendEvent(Level.Error, tag, name, eventData.GetOr(map[]));
    }
  }
}
