/**
 * The logger service's routing state as values, and what each of its
 * operations does to that state: the tag catalog, the consumer table
 * `level -> tag -> consumer ids`, the event catalog, the context
 * providers and the dispatch of one event. The class in logger.dfy updates
 * its fields step by step and is proved to compute exactly these functions.
 */
module Routing {
  import opened JsValues

  type Tag = string
  type Id = string
  /** The identity of a consumer's callback function. */
  type Token = string
  /** The flat object a context provider returns. */
  type Ctx = map<string, string>
  /** Machine name -> human-readable label, for one tag. */
  type Labels = map<string, string>
  /** The event catalog: tag -> labels. */
  type Catalog = map<Tag, Labels>

  // ---------------------------------------------------------------------
  // Levels
  // ---------------------------------------------------------------------

  datatype Level = Info | Warning | Error

  /** `Object.keys(this.levels)` */
  const AllLevels: seq<Level> := [Info, Warning, Error]

  /** The position of a level in `AllLevels`. */
  function LevelIndex(l: Level): (i: nat)
    ensures i < |AllLevels| && AllLevels[i] == l
  {
    match l
    case Info => 0
    case Warning => 1
    case Error => 2
  }

  function LevelName(l: Level): string {
    match l
    case Info => "info"
    case Warning => "warning"
    case Error => "error"
  }

  /** `this.levels.hasOwnProperty(s)`, returning the level it names. */
  function ParseLevel(s: string): (r: Option<Level>)
    ensures r.Some? <==> (s == "info" || s == "warning" || s == "error")
    ensures r.Some? ==> LevelName(r.value) == s
  {
    if s == "info" then Some(Info)
    else if s == "warning" then Some(Warning)
    else if s == "error" then Some(Error)
    else None
  }

  // ---------------------------------------------------------------------
  // Callbacks
  // ---------------------------------------------------------------------

  /**
   * What may be stored as a consumer callback or a context provider:
   * a function (`body` is what calling it yields: for a consumer, the
   * function's identity; for a provider, the object it returns), a
   * `[fn, scope]` array, or any other value, truthy or not.
   */
  datatype Callback<T> = Fn(body: T) | Pair(target: T, scope: string) | Plain(truthy: bool)

  predicate Truthy<T>(cb: Callback<T>) {
    match cb
    case Fn(_) => true
    case Pair(_, _) => true
    case Plain(b) => b
  }

  /**
   * `_executeCallback`: the type check looks at the stored value itself, so
   * only a bare function runs; a `[fn, scope]` array, like any other value,
   * yields `undefined` without running anything.
   */
  function ExecuteCallback<T>(cb: Callback<T>): (r: Option<T>)
    ensures r.Some? <==> cb.Fn?
    ensures cb.Pair? ==> r == None
    ensures r.Some? ==> r.value == cb.body
  {
    match cb
    case Fn(b) => Some(b)
    case _ => None
  }

  // ---------------------------------------------------------------------
  // The tag catalog and the consumer table
  // ---------------------------------------------------------------------

  /** One level of `_consumerMap`: tag -> consumer ids, in registration order. */
  type Cells = map<Tag, seq<Id>>

  /** `_consumerMap`: the cells of each of the three levels. */
  datatype Table = Table(info: Cells, warning: Cells, error: Cells) {
    function At(l: Level): Cells {
      match l
      case Info => info
      case Warning => warning
      case Error => error
    }

    function With(l: Level, cells: Cells): (r: Table)
      ensures r.At(l) == cells
      ensures forall l' :: l' != l ==> r.At(l') == At(l')
    {
      match l
      case Info => this.(info := cells)
      case Warning => this.(warning := cells)
      case Error => this.(error := cells)
    }
  }

  /** Two tables that agree on every level are equal. */
  lemma TableExt(a: Table, b: Table)
    requires forall l :: a.At(l) == b.At(l)
    ensures a == b
  {
    assert a.At(Info) == b.At(Info) && a.At(Warning) == b.At(Warning) && a.At(Error) == b.At(Error);
  }

  /** Every level lists exactly the known tags. */
  predicate Rectangular(table: Table, known: set<Tag>) {
    table.info.Keys == known && table.warning.Keys == known && table.error.Keys == known
  }

  /** `tags[t] == t` for every known tag. */
  ghost predicate SelfNamed(tags: map<Tag, Tag>) {
    forall t :: t in tags ==> tags[t] == t
  }

  /** The table `init` builds: the three levels, no tags. */
  function InitialTable(): (table: Table)
    ensures Rectangular(table, {})
    ensures forall l :: table.At(l) == map[]
  {
    Table(map[], map[], map[])
  }

  /** One level's cells after registering `ts`: unknown tags get `[]`. */
  function AddTagsToCells(cells: Cells, ts: seq<Tag>): (r: Cells)
    ensures forall t :: t in ts ==> t in r
  {
    cells + map t | t in ts && t !in cells :: []
  }

  /** The consumer table after `registerTags(ts)`. */
  function AddTags(table: Table, ts: seq<Tag>): (r: Table)
    ensures forall l :: r.At(l) == AddTagsToCells(table.At(l), ts)
  {
    Table(AddTagsToCells(table.info, ts), AddTagsToCells(table.warning, ts), AddTagsToCells(table.error, ts))
  }

  /** The tag map after `registerTags(ts)`. */
  function AddTagNames(tags: map<Tag, Tag>, ts: seq<Tag>): map<Tag, Tag> {
    tags + map t | t in ts :: t
  }

  /** Registering tags keeps the table rectangular over the grown tag set. */
  lemma AddTagsRectangular(table: Table, tags: map<Tag, Tag>, ts: seq<Tag>)
    requires Rectangular(table, tags.Keys) && SelfNamed(tags)
    ensures Rectangular(AddTags(table, ts), AddTagNames(tags, ts).Keys)
    ensures SelfNamed(AddTagNames(tags, ts))
    ensures AddTagNames(tags, ts).Keys == tags.Keys + (set t | t in ts)
  {
  }

  /** The lists already in the table are untouched; new tags start empty. */
  lemma AddTagsCells(cells: Cells, ts: seq<Tag>, t: Tag)
    ensures t in AddTagsToCells(cells, ts) <==> t in cells || t in ts
    ensures t in cells ==> AddTagsToCells(cells, ts)[t] == cells[t]
    ensures t !in cells && t in ts ==> AddTagsToCells(cells, ts)[t] == []
  {
  }

  /** One more tag: a new one gets `[]`, a known one changes nothing. */
  lemma AddTagsToCellsSnoc(cells: Cells, ts: seq<Tag>, t: Tag)
    ensures var c := AddTagsToCells(cells, ts);
            AddTagsToCells(cells, ts + [t]) == if t in c then c else c[t := []]
  {
    var c := AddTagsToCells(cells, ts);
    var d := AddTagsToCells(cells, ts + [t]);
    var e := if t in c then c else c[t := []];
    assert forall u :: u in ts + [t] <==> u in ts || u == t;
    assert d.Keys == e.Keys;
    forall u | u in d ensures d[u] == e[u] {
    }
  }

  lemma AddTagNamesSnoc(tags: map<Tag, Tag>, ts: seq<Tag>, t: Tag)
    ensures AddTagNames(tags, ts + [t]) == AddTagNames(tags, ts)[t := t]
  {
    var d := AddTagNames(tags, ts + [t]);
    var e := AddTagNames(tags, ts)[t := t];
    assert forall u :: u in ts + [t] <==> u in ts || u == t;
    assert d.Keys == e.Keys;
  }

  /** AddTagsToCellsSnoc and AddTagNamesSnoc for the prefixes a loop over the tags walks through. */
  lemma AddTagsPrefixStep(cells: Cells, names: map<Tag, Tag>, ts: seq<Tag>, k: nat)
    requires k < |ts|
    ensures var c := AddTagsToCells(cells, ts[..k]);
            AddTagsToCells(cells, ts[..k + 1]) == if ts[k] in c then c else c[ts[k] := []]
    ensures AddTagNames(names, ts[..k + 1]) == AddTagNames(names, ts[..k])[ts[k] := ts[k]]
  {
    assert ts[..k + 1] == ts[..k] + [ts[k]];
    AddTagsToCellsSnoc(cells, ts[..k], ts[k]);
    AddTagNamesSnoc(names, ts[..k], ts[k]);
  }

  lemma AddTagNamesSingle(t: Tag)
    ensures AddTagNames(map[], [t]) == map[t := t]
  {
    var none: map<Tag, Tag> := map[];
    var m := AddTagNames(none, [t]);
    assert t in m;
    assert m.Keys == {t};
  }

  lemma AddTagNamesIdempotent(tags: map<Tag, Tag>, ts: seq<Tag>)
    ensures AddTagNames(AddTagNames(tags, ts), ts) == AddTagNames(tags, ts)
  {
  }

  lemma AddTagsToCellsIdempotent(cells: Cells, ts: seq<Tag>)
    ensures AddTagsToCells(AddTagsToCells(cells, ts), ts) == AddTagsToCells(cells, ts)
  {
  }

  /** Registering the same tags again changes nothing. */
  lemma AddTagsIdempotent(table: Table, tags: map<Tag, Tag>, ts: seq<Tag>)
    ensures AddTags(AddTags(table, ts), ts) == AddTags(table, ts)
    ensures AddTagNames(AddTagNames(tags, ts), ts) == AddTagNames(tags, ts)
  {
    AddTagsToCellsIdempotent(table.info, ts);
    AddTagsToCellsIdempotent(table.warning, ts);
    AddTagsToCellsIdempotent(table.error, ts);
    AddTagNamesIdempotent(tags, ts);
  }

  lemma AddTagsToCellsTwice(cells: Cells, t1: seq<Tag>, t2: seq<Tag>)
    ensures AddTagsToCells(AddTagsToCells(cells, t1), t2) == AddTagsToCells(cells, t1 + t2)
  {
    var lhs := AddTagsToCells(AddTagsToCells(cells, t1), t2);
    var rhs := AddTagsToCells(cells, t1 + t2);
    assert forall t :: t in t1 + t2 <==> t in t1 || t in t2;
    assert lhs.Keys == rhs.Keys;
    forall t | t in lhs ensures lhs[t] == rhs[t] {
    }
  }

  /** Registering t1 then t2 is registering their concatenation. */
  lemma AddTagsTwice(table: Table, tags: map<Tag, Tag>, t1: seq<Tag>, t2: seq<Tag>)
    ensures AddTags(AddTags(table, t1), t2) == AddTags(table, t1 + t2)
    ensures AddTagNames(AddTagNames(tags, t1), t2) == AddTagNames(tags, t1 + t2)
  {
    AddTagsToCellsTwice(table.info, t1, t2);
    AddTagsToCellsTwice(table.warning, t1, t2);
    AddTagsToCellsTwice(table.error, t1, t2);
    AddTagNamesTwice(tags, t1, t2);
  }

  lemma AddTagNamesTwice(tags: map<Tag, Tag>, t1: seq<Tag>, t2: seq<Tag>)
    ensures AddTagNames(AddTagNames(tags, t1), t2) == AddTagNames(tags, t1 + t2)
  {
    var a, b, c := map t | t in t1 :: t, map t | t in t2 :: t, map t | t in t1 + t2 :: t;
    assert forall t :: t in t1 + t2 <==> t in t1 || t in t2;
    assert c == a + b;
    var lhs, rhs := (tags + a) + b, tags + (a + b);
    assert lhs.Keys == rhs.Keys;
    forall k | k in lhs ensures lhs[k] == rhs[k] {
    }
  }

  // ---------------------------------------------------------------------
  // Registering a consumer in the table
  // ---------------------------------------------------------------------

  /** The inner loop of `registerConsumer`: push `id` onto the cell of each tag of ts. */
  function SubscribeCells(cells: Cells, ts: seq<Tag>, id: Id): (r: Cells)
    requires forall t :: t in ts ==> t in cells
    ensures r.Keys == cells.Keys
  {
    if |ts| == 0 then cells
    else
      var prev := SubscribeCells(cells, ts[..|ts| - 1], id);
      var t := ts[|ts| - 1];
      prev[t := prev[t] + [id]]
  }

  /** Both loops of `registerConsumer`; unrecognised level names are skipped. */
  function Subscribe(table: Table, levels: seq<string>, ts: seq<Tag>, id: Id): (r: Table)
    requires forall l, t :: t in ts ==> t in table.At(l)
    ensures forall l :: r.At(l).Keys == table.At(l).Keys
  {
    if |levels| == 0 then table
    else
      var prev := Subscribe(table, levels[..|levels| - 1], ts, id);
      match ParseLevel(levels[|levels| - 1])
      case None => prev
      case Some(l) => prev.With(l, SubscribeCells(prev.At(l), ts, id))
  }

  /** Registering a consumer adds no tag and drops none. */
  lemma SubscribeRectangular(table: Table, known: set<Tag>, levels: seq<string>, ts: seq<Tag>, id: Id)
    requires forall l, t :: t in ts ==> t in table.At(l)
    requires Rectangular(table, known)
    ensures Rectangular(Subscribe(table, levels, ts, id), known)
  {
    var r := Subscribe(table, levels, ts, id);
    assert r.At(Info).Keys == table.At(Info).Keys;
    assert r.At(Warning).Keys == table.At(Warning).Keys;
    assert r.At(Error).Keys == table.At(Error).Keys;
  }

  /** Within one level, each tag's cell gains one `id` per occurrence of the tag. */
  lemma {:induction false} SubscribeCellsAt(cells: Cells, ts: seq<Tag>, id: Id, t: Tag)
    requires forall t :: t in ts ==> t in cells
    requires t in cells
    ensures SubscribeCells(cells, ts, id)[t] == cells[t] + Repeat(id, Count(ts, t))
  {
    if |ts| > 0 {
      var front := ts[..|ts| - 1];
      SubscribeCellsAt(cells, front, id, t);
      if ts[|ts| - 1] == t {
        RepeatAdd(id, Count(front, t), 1);
      }
    }
  }

  lemma SubscribeStep(table: Table, levels: seq<string>, ts: seq<Tag>, id: Id, l: Level, t: Tag)
    requires forall l, t :: t in ts ==> t in table.At(l)
    requires t in table.At(l)
    requires |levels| > 0
    ensures Subscribe(table, levels, ts, id).At(l)[t]
         == Subscribe(table, levels[..|levels| - 1], ts, id).At(l)[t]
            + (if levels[|levels| - 1] == LevelName(l) then Repeat(id, Count(ts, t)) else [])
  {
    var prev := Subscribe(table, levels[..|levels| - 1], ts, id);
    if ParseLevel(levels[|levels| - 1]) == Some(l) {
      SubscribeCellsAt(prev.At(l), ts, id, t);
    } else {
      assert levels[|levels| - 1] != LevelName(l);
    }
  }

  /**
   * After `registerConsumer`, cell (l, t) ends with one extra copy of `id`
   * per pair of an occurrence of l's name in `levels` and an occurrence of
   * t in `ts`: repeated arguments give duplicates, and cells outside the
   * cross product stay as they were.
   */
  lemma {:induction false} SubscribeCell(table: Table, levels: seq<string>, ts: seq<Tag>, id: Id, l: Level, t: Tag)
    requires forall l, t :: t in ts ==> t in table.At(l)
    requires t in table.At(l)
    ensures Subscribe(table, levels, ts, id).At(l)[t]
         == table.At(l)[t] + Repeat(id, Mul(Count(levels, LevelName(l)), Count(ts, t)))
  {
    if |levels| > 0 {
      var front := levels[..|levels| - 1];
      SubscribeCell(table, front, ts, id, l, t);
      SubscribeStep(table, levels, ts, id, l, t);
      CellStep(table.At(l)[t], Subscribe(table, front, ts, id).At(l)[t], Subscribe(table, levels, ts, id).At(l)[t],
               id, levels, LevelName(l), Count(ts, t));
    }
  }

  /** The counting step of SubscribeCell, apart from the table. */
  lemma CellStep(base: seq<Id>, prev: seq<Id>, cur: seq<Id>, id: Id, levels: seq<string>, name: string, c: nat)
    requires |levels| > 0
    requires prev == base + Repeat(id, Mul(Count(levels[..|levels| - 1], name), c))
    requires cur == prev + (if levels[|levels| - 1] == name then Repeat(id, c) else [])
    ensures cur == base + Repeat(id, Mul(Count(levels, name), c))
  {
    var a := Mul(Count(levels[..|levels| - 1], name), c);
    if levels[|levels| - 1] == name {
      assert Mul(Count(levels, name), c) == a + c;
      RepeatAdd(id, a, c);
      assert prev + Repeat(id, c) == base + (Repeat(id, a) + Repeat(id, c));
    }
  }

  /** The same, with the count written as a product. */
  lemma SubscribeCellProduct(table: Table, levels: seq<string>, ts: seq<Tag>, id: Id, l: Level, t: Tag)
    requires forall l, t :: t in ts ==> t in table.At(l)
    requires t in table.At(l)
    ensures Subscribe(table, levels, ts, id).At(l)[t]
         == table.At(l)[t] + Repeat(id, Count(levels, LevelName(l)) * Count(ts, t))
  {
    SubscribeCell(table, levels, ts, id, l, t);
    MulIsProduct(Count(levels, LevelName(l)), Count(ts, t));
  }

  // ---------------------------------------------------------------------
  // Unregistering a consumer
  // ---------------------------------------------------------------------

  /** `s.splice(s.indexOf(x), 1)` when x is found: the first copy goes. */
  function RemoveFirst(s: seq<Id>, x: Id): seq<Id> {
    var i := IndexOf(s, x);
    if i < 0 then s else s[..i] + s[i + 1..]
  }

  function UnsubscribeCells(cells: Cells, id: Id): Cells {
    map t | t in cells :: RemoveFirst(cells[t], id)
  }

  /** The consumer table after `unregisterConsumer(id)`. */
  function Unsubscribe(table: Table, id: Id): Table {
    Table(UnsubscribeCells(table.info, id), UnsubscribeCells(table.warning, id), UnsubscribeCells(table.error, id))
  }

  lemma MultisetTakeOne(a: multiset<Id>, b: multiset<Id>, x: Id)
    ensures (a + multiset([x]) + b) - multiset{x} == a + b
  {
    forall y ensures ((a + multiset([x]) + b) - multiset{x})[y] == (a + b)[y] {
    }
  }

  lemma MultisetTakeNone(a: multiset<Id>, x: Id)
    requires x !in a
    ensures a - multiset{x} == a
  {
    forall y ensures (a - multiset{x})[y] == a[y] {
    }
  }

  lemma RemoveFirstMultiset(s: seq<Id>, x: Id)
    ensures multiset(RemoveFirst(s, x)) == multiset(s) - multiset{x}
  {
    var i := IndexOf(s, x);
    if 0 <= i {
      var a, b := s[..i], s[i + 1..];
      assert s == a + [x] + b;
      assert multiset(s) == multiset(a) + multiset([x]) + multiset(b);
      assert RemoveFirst(s, x) == a + b;
      assert multiset(a + b) == multiset(a) + multiset(b);
      MultisetTakeOne(multiset(a), multiset(b), x);
    } else {
      assert x !in multiset(s);
      MultisetTakeNone(multiset(s), x);
    }
  }

  lemma RemoveFirstKeepsOthers(s: seq<Id>, x: Id)
    ensures Without(RemoveFirst(s, x), x) == Without(s, x)
  {
    var i := IndexOf(s, x);
    if 0 <= i {
      var a, b := s[..i], s[i + 1..];
      assert s == (a + [x]) + b;
      WithoutAppend(a + [x], b, x);
      WithoutAppend(a, [x], x);
      WithoutAppend(a, b, x);
      assert Without([x], x) == [];
    }
  }

  /**
   * Removing the first copy drops at most one element and keeps the order of
   * everything else: the entries other than x are exactly as before, and x
   * occurs once less if it occurred at all.
   */
  lemma RemoveFirstEffect(s: seq<Id>, x: Id)
    ensures x !in s ==> RemoveFirst(s, x) == s
    ensures x in s ==> |RemoveFirst(s, x)| == |s| - 1
    ensures multiset(RemoveFirst(s, x)) == multiset(s) - multiset{x}
    ensures Without(RemoveFirst(s, x), x) == Without(s, x)
  {
    RemoveFirstMultiset(s, x);
    RemoveFirstKeepsOthers(s, x);
  }

  /** Unregistering keeps the table rectangular over the same tags. */
  lemma UnsubscribeRectangular(table: Table, known: set<Tag>, id: Id)
    requires Rectangular(table, known)
    ensures Rectangular(Unsubscribe(table, id), known)
  {
  }

  lemma UnsubscribeAt(table: Table, id: Id, l: Level)
    ensures Unsubscribe(table, id).At(l) == UnsubscribeCells(table.At(l), id)
  {
  }

  /** Each cell loses its first copy of id (when it has one) and nothing else. */
  lemma UnsubscribeCell(table: Table, id: Id, l: Level, t: Tag)
    requires t in table.At(l)
    ensures t in Unsubscribe(table, id).At(l)
    ensures multiset(Unsubscribe(table, id).At(l)[t]) == multiset(table.At(l)[t]) - multiset{id}
    ensures Without(Unsubscribe(table, id).At(l)[t], id) == Without(table.At(l)[t], id)
  {
    UnsubscribeAt(table, id, l);
    RemoveFirstEffect(table.At(l)[t], id);
  }

  lemma UnsubscribeCellsUnknown(cells: Cells, id: Id)
    requires forall t :: t in cells ==> id !in cells[t]
    ensures UnsubscribeCells(cells, id) == cells
  {
  }

  /** Unregistering an id that no cell holds changes nothing. */
  lemma UnsubscribeUnknown(table: Table, id: Id)
    requires forall l, t :: t in table.At(l) ==> id !in table.At(l)[t]
    ensures Unsubscribe(table, id) == table
  {
    assert table.At(Info) == table.info && table.At(Warning) == table.warning && table.At(Error) == table.error;
    UnsubscribeCellsUnknown(table.info, id);
    UnsubscribeCellsUnknown(table.warning, id);
    UnsubscribeCellsUnknown(table.error, id);
  }

  lemma RemoveFirstAppended(s: seq<Id>, id: Id)
    requires id !in s
    ensures RemoveFirst(s + [id], id) == s
  {
    var s' := s + [id];
    var i := IndexOf(s', id);
    assert s'[|s|] == id;
    assert s'[..|s|] == s;
    assert i == |s|;
    assert s'[..i] == s;
    assert s'[i + 1..] == [];
  }

  lemma SubscribeThenUnsubscribeCell(table: Table, levels: seq<string>, ts: seq<Tag>, id: Id, l: Level, t: Tag)
    requires forall l, t :: t in ts ==> t in table.At(l)
    requires t in table.At(l) && id !in table.At(l)[t]
    requires Distinct(levels) && Distinct(ts)
    ensures RemoveFirst(Subscribe(table, levels, ts, id).At(l)[t], id) == table.At(l)[t]
  {
    SubscribeCell(table, levels, ts, id, l, t);
    var a := Count(levels, LevelName(l));
    var c := Count(ts, t);
    DistinctCount(levels, LevelName(l));
    DistinctCount(ts, t);
    if a == 1 && c == 1 {
      assert Mul(a, c) == 1;
      assert Repeat(id, 1) == [id];
      RemoveFirstAppended(table.At(l)[t], id);
    } else {
      assert Mul(a, c) == 0;
      assert table.At(l)[t] + Repeat(id, 0) == table.At(l)[t];
    }
  }

  lemma SubscribeThenUnsubscribeLevel(table: Table, levels: seq<string>, ts: seq<Tag>, id: Id, l: Level)
    requires forall l, t :: t in ts ==> t in table.At(l)
    requires forall l, t :: t in table.At(l) ==> id !in table.At(l)[t]
    requires Distinct(levels) && Distinct(ts)
    ensures UnsubscribeCells(Subscribe(table, levels, ts, id).At(l), id) == table.At(l)
  {
    var sub := Subscribe(table, levels, ts, id).At(l);
    forall t | t in sub ensures RemoveFirst(sub[t], id) == table.At(l)[t] {
      SubscribeThenUnsubscribeCell(table, levels, ts, id, l, t);
    }
  }

  /**
   * A consumer registered once for each of its levels and tags, then
   * unregistered, leaves the table as it found it.
   */
  lemma SubscribeThenUnsubscribe(table: Table, levels: seq<string>, ts: seq<Tag>, id: Id)
    requires forall l, t :: t in ts ==> t in table.At(l)
    requires forall l, t :: t in table.At(l) ==> id !in table.At(l)[t]
    requires Distinct(levels) && Distinct(ts)
    ensures Unsubscribe(Subscribe(table, levels, ts, id), id) == table
  {
    var sub := Subscribe(table, levels, ts, id);
    SubscribeThenUnsubscribeLevel(table, levels, ts, id, Info);
    SubscribeThenUnsubscribeLevel(table, levels, ts, id, Warning);
    SubscribeThenUnsubscribeLevel(table, levels, ts, id, Error);
    assert sub.At(Info) == sub.info && sub.At(Warning) == sub.warning && sub.At(Error) == sub.error;
  }

  /** Cells that registering tags creates are empty, so they hold no consumer. */
  lemma AddTagsKeepsAbsent(table: Table, ts: seq<Tag>, id: Id)
    requires forall l, t :: t in table.At(l) ==> id !in table.At(l)[t]
    ensures forall l, t :: t in AddTags(table, ts).At(l) ==> id !in AddTags(table, ts).At(l)[t]
  {
  }

  /**
   * `registerConsumer` followed by `unregisterConsumer`, for a consumer the
   * table did not hold and arguments without repetitions, leaves the table
   * as `registerTags` alone would: the tags stay registered, with the
   * consumer gone from every cell.
   */
  lemma UnregisterUndoesRegister(table: Table, levels: seq<string>, ts: seq<Tag>, id: Id)
    requires forall l, t :: t in table.At(l) ==> id !in table.At(l)[t]
    requires Distinct(levels) && Distinct(ts)
    ensures Unsubscribe(Subscribe(AddTags(table, ts), levels, ts, id), id) == AddTags(table, ts)
  {
    AddTagsKeepsAbsent(table, ts, id);
    SubscribeThenUnsubscribe(AddTags(table, ts), levels, ts, id);
  }

  /**
   * A consumer registered twice for the same cell keeps one copy in it after
   * `unregisterConsumer`: only the first occurrence is spliced out.
   */
  lemma DuplicateSurvivesUnsubscribe(cells: Cells, t: Tag, id: Id)
    requires t in cells && id !in cells[t]
    ensures UnsubscribeCells(SubscribeCells(cells, [t, t], id), id)[t] == cells[t] + [id]
  {
    var twice := SubscribeCells(cells, [t, t], id);
    SubscribeCellsAt(cells, [t, t], id, t);
    assert Count([t, t], t) == 2;
    assert twice[t] == cells[t] + [id] + [id];
    assert IndexOf(twice[t], id) == |cells[t]|;
  }

  // ---------------------------------------------------------------------
  // The event catalog
  // ---------------------------------------------------------------------

  /** `events[t] || {}`: a tag's labels, or none. */
  function LabelsOf(events: Catalog, t: Tag): Labels {
    if t in events then events[t] else map[]
  }

  /**
   * The catalog after `registerEvents(input)`: each supplied tag's labels
   * are assigned onto the existing ones (or onto `{}`).
   */
  function MergeEvents(events: Catalog, input: Catalog): Catalog {
    map t | t in events.Keys + input.Keys :: if t in input then LabelsOf(events, t) + input[t] else events[t]
  }

  /** Tags missing from a catalog and tags present with `{}` look the same through LabelsOf. */
  lemma LabelsOfExt(a: Catalog, b: Catalog)
    requires forall t :: LabelsOf(a, t) == LabelsOf(b, t)
    requires forall t :: t in a <==> t in b
    ensures a == b
  {
    forall t | t in a ensures a[t] == b[t] {
      assert LabelsOf(a, t) == a[t] && LabelsOf(b, t) == b[t];
    }
    assert a.Keys == b.Keys;
  }

  /** The part of a catalog whose tags are among ks. */
  function Only(c: Catalog, ks: seq<Tag>): Catalog {
    map t | t in c && t in ks :: c[t]
  }

  lemma OnlyStep(input: Catalog, ks: seq<Tag>, t: Tag, u: Tag)
    requires t in input && t !in ks
    ensures LabelsOf(Only(input, ks + [t]), u) == if u == t then input[t] else LabelsOf(Only(input, ks), u)
    ensures u in Only(input, ks + [t]) <==> u in Only(input, ks) || u == t
  {
    assert u in ks + [t] <==> u in ks || u == t;
  }

  /** Merging one more tag t of the input assigns its labels onto `events[t] || {}`. */
  lemma MergeEventsStep(events: Catalog, input: Catalog, ks: seq<Tag>, t: Tag)
    requires t in input && t !in ks
    ensures var m := MergeEvents(events, Only(input, ks));
            MergeEvents(events, Only(input, ks + [t])) == m[t := LabelsOf(m, t) + input[t]]
  {
    var m := MergeEvents(events, Only(input, ks));
    var lhs := MergeEvents(events, Only(input, ks + [t]));
    var rhs := m[t := LabelsOf(m, t) + input[t]];
    forall u ensures LabelsOf(lhs, u) == LabelsOf(rhs, u) && (u in lhs <==> u in rhs) {
      MergeEventsLabels(events, Only(input, ks + [t]), u);
      MergeEventsLabels(events, Only(input, ks), u);
      OnlyStep(input, ks, t, u);
    }
    LabelsOfExt(lhs, rhs);
  }

  /** Before any tag is merged, the catalog is as it was. */
  lemma MergeEventsNothing(events: Catalog, input: Catalog)
    ensures MergeEvents(events, Only(input, [])) == events
  {
    assert Only(input, []) == map[];
  }

  lemma MergeEventsKeys(events: Catalog, input: Catalog)
    ensures MergeEvents(events, input).Keys == events.Keys + input.Keys
  {
  }

  lemma OnlyAll(c: Catalog, ks: seq<Tag>)
    requires forall t :: t in c ==> t in ks
    ensures Only(c, ks) == c
  {
  }

  /** Tag by tag, the merged labels are the old ones overridden by the supplied ones. */
  lemma MergeEventsLabels(events: Catalog, input: Catalog, t: Tag)
    ensures LabelsOf(MergeEvents(events, input), t) == LabelsOf(events, t) + LabelsOf(input, t)
  {
    var none: Labels := map[];
    if t !in input {
      assert LabelsOf(events, t) + none == LabelsOf(events, t);
    }
  }

  /**
   * Supplied labels win, labels and tags not supplied are kept, and no tag
   * or name is ever dropped.
   */
  lemma MergeEventsEffect(events: Catalog, input: Catalog, t: Tag, n: string)
    ensures t in MergeEvents(events, input) <==> t in events || t in input
    ensures t in input && n in input[t] ==> MergeEvents(events, input)[t][n] == input[t][n]
    ensures t in events && n in events[t] && !(t in input && n in input[t])
            ==> MergeEvents(events, input)[t][n] == events[t][n]
    ensures t in MergeEvents(events, input) ==>
            (n in MergeEvents(events, input)[t] <==> (t in events && n in events[t]) || (t in input && n in input[t]))
  {
  }

  lemma MergeEventsTwiceAt(events: Catalog, first: Catalog, second: Catalog, t: Tag)
    ensures LabelsOf(MergeEvents(MergeEvents(events, first), second), t)
         == LabelsOf(MergeEvents(events, MergeEvents(first, second)), t)
  {
    MergeEventsLabels(MergeEvents(events, first), second, t);
    MergeEventsLabels(events, first, t);
    MergeEventsLabels(events, MergeEvents(first, second), t);
    MergeEventsLabels(first, second, t);
    MergeLabelsAssociative(LabelsOf(events, t), LabelsOf(first, t), LabelsOf(second, t));
  }

  lemma MergeLabelsAssociative(e: Labels, f: Labels, g: Labels)
    ensures (e + f) + g == e + (f + g)
  {
    var lhs, rhs := (e + f) + g, e + (f + g);
    assert lhs.Keys == rhs.Keys;
    forall k | k in lhs ensures lhs[k] == rhs[k] {
    }
  }

  /**
   * Registering two catalogs one after the other is registering, once, the
   * first catalog merged with the second: labels accumulate instead of
   * being replaced.
   */
  lemma MergeEventsTwice(events: Catalog, first: Catalog, second: Catalog)
    ensures MergeEvents(MergeEvents(events, first), second) == MergeEvents(events, MergeEvents(first, second))
  {
    var lhs := MergeEvents(MergeEvents(events, first), second);
    var rhs := MergeEvents(events, MergeEvents(first, second));
    assert lhs.Keys == rhs.Keys;
    forall t | t in lhs ensures lhs[t] == rhs[t] {
      MergeEventsTwiceAt(events, first, second, t);
      assert LabelsOf(lhs, t) == lhs[t] && LabelsOf(rhs, t) == rhs[t];
    }
  }

  /** Catalogs with no tag in common simply accumulate. */
  lemma MergeEventsDisjoint(events: Catalog, input: Catalog)
    requires events.Keys !! input.Keys
    ensures MergeEvents(events, input) == events + input
  {
    var lhs := MergeEvents(events, input);
    forall t | t in input ensures lhs[t] == input[t] {
      var none: Labels := map[];
      assert none + input[t] == input[t];
    }
    assert lhs.Keys == (events + input).Keys;
  }

  /** On an empty catalog, registering a seed gives the seed back. */
  lemma MergeEventsIntoEmpty(input: Catalog)
    ensures MergeEvents(map[], input) == input
  {
    forall t | t in input ensures MergeEvents(map[], input)[t] == input[t] {
      var none: Labels := map[];
      assert none + input[t] == input[t];
    }
  }

  // ---------------------------------------------------------------------
  // Dispatch
  // ---------------------------------------------------------------------

  /** A piece of event metadata. */
  datatype Datum = Text(text: string) | Number(number: int) | Raised(error: Thrown)

  type Metadata = map<string, Datum>

  /** The event descriptor `{ name, type: tag, level, metadata }`. */
  datatype Event = Event(name: string, tag: Tag, level: Level, metadata: Metadata)

  datatype Context = Context(application: Ctx, user: Ctx)

  /** One callback run: `fn(event, context)`. */
  datatype Invocation = Invocation(callback: Token, event: Event, context: Context)

  /**
   * The outcome of one `_sendEvent`: `Skipped` when the cell is missing or
   * empty (no provider and no callback runs), otherwise the context that was
   * built and the callback runs in order.
   */
  datatype Delivery = Skipped | Delivered(context: Context, calls: seq<Invocation>)

  /** `_callbackMap[id] || null` */
  function Resolve(callbacks: map<Id, Callback<Token>>, id: Id): Option<Callback<Token>> {
    if id in callbacks && Truthy(callbacks[id]) then Some(callbacks[id]) else None
  }

  /** `map[level][tag]`, or `[]` when the tag has no cell. */
  function Listeners(table: Table, level: Level, tag: Tag): seq<Id> {
    if tag in table.At(level) then table.At(level)[tag] else []
  }

  /** `_getCallbacks(level, tag)`: the stored callback of each listener, in order. */
  function Callbacks(table: Table, callbacks: map<Id, Callback<Token>>, level: Level, tag: Tag)
    : (r: seq<Option<Callback<Token>>>)
    ensures |r| == |Listeners(table, level, tag)|
    ensures forall i :: 0 <= i < |r| ==> r[i] == Resolve(callbacks, Listeners(table, level, tag)[i])
  {
    ResolveAll(callbacks, Listeners(table, level, tag))
  }

  function ResolveAll(callbacks: map<Id, Callback<Token>>, cell: seq<Id>): (r: seq<Option<Callback<Token>>>)
    ensures |r| == |cell|
    ensures forall i :: 0 <= i < |r| ==> r[i] == Resolve(callbacks, cell[i])
  {
    seq(|cell|, i requires 0 <= i < |cell| => Resolve(callbacks, cell[i]))
  }

  /** The run a resolved entry causes: only a bare function runs. */
  function Run(entry: Option<Callback<Token>>, ev: Event, ctx: Context): seq<Invocation> {
    match entry
    case None => []
    case Some(cb) =>
      match ExecuteCallback(cb)
      case None => []
      case Some(fn) => [Invocation(fn, ev, ctx)]
  }

  /** The `callbacks.forEach` of `_sendEvent`. */
  function Fanout(rs: seq<Option<Callback<Token>>>, ev: Event, ctx: Context): seq<Invocation> {
    if |rs| == 0 then []
    else Fanout(rs[..|rs| - 1], ev, ctx) + Run(rs[|rs| - 1], ev, ctx)
  }

  /** How many entries are bare functions. */
  function Runnable(rs: seq<Option<Callback<Token>>>): nat {
    if |rs| == 0 then 0
    else Runnable(rs[..|rs| - 1]) + (if rs[|rs| - 1].Some? && rs[|rs| - 1].value.Fn? then 1 else 0)
  }

  lemma {:induction false} RunnablePrefix(rs: seq<Option<Callback<Token>>>, i: nat)
    requires i <= |rs|
    ensures Runnable(rs[..i]) <= Runnable(rs)
    ensures i < |rs| && rs[i].Some? && rs[i].value.Fn? ==> Runnable(rs[..i]) < Runnable(rs)
  {
    if i < |rs| {
      var front := rs[..|rs| - 1];
      assert rs[..i] == front[..i];
      if i < |rs| - 1 {
        RunnablePrefix(front, i);
      } else {
        assert front == rs[..i];
      }
    } else {
      assert rs[..i] == rs;
    }
  }

  /**
   * The fan-out runs every bare function once, in cell order, each with the
   * same event and context: the i-th entry, when it is a function, is the
   * run numbered by how many functions precede it.
   */
  lemma {:induction false} FanoutOrder(rs: seq<Option<Callback<Token>>>, ev: Event, ctx: Context)
    ensures |Fanout(rs, ev, ctx)| == Runnable(rs)
    ensures forall k :: 0 <= k < |Fanout(rs, ev, ctx)| ==>
              Fanout(rs, ev, ctx)[k].event == ev && Fanout(rs, ev, ctx)[k].context == ctx
    ensures forall i :: 0 <= i < |rs| && rs[i].Some? && rs[i].value.Fn? ==>
              Runnable(rs[..i]) < |Fanout(rs, ev, ctx)|
              && Fanout(rs, ev, ctx)[Runnable(rs[..i])] == Invocation(rs[i].value.body, ev, ctx)
  {
    if |rs| > 0 {
      var front := rs[..|rs| - 1];
      FanoutOrder(front, ev, ctx);
      forall i | 0 <= i < |rs| && rs[i].Some? && rs[i].value.Fn?
        ensures Runnable(rs[..i]) < |Fanout(rs, ev, ctx)|
        ensures Fanout(rs, ev, ctx)[Runnable(rs[..i])] == Invocation(rs[i].value.body, ev, ctx)
      {
        if i < |rs| - 1 {
          assert rs[..i] == front[..i];
          assert front[i] == rs[i];
        } else {
          assert rs[..i] == front;
        }
      }
    }
  }

  /** Every run comes from an entry that is a bare function. */
  lemma {:induction false} FanoutSound(rs: seq<Option<Callback<Token>>>, ev: Event, ctx: Context, k: int)
    requires 0 <= k < |Fanout(rs, ev, ctx)|
    ensures exists i :: 0 <= i < |rs| && rs[i] == Some(Fn(Fanout(rs, ev, ctx)[k].callback))
  {
    var front := rs[..|rs| - 1];
    var f := Fanout(rs, ev, ctx);
    assert f == Fanout(front, ev, ctx) + Run(rs[|rs| - 1], ev, ctx);
    if k < |Fanout(front, ev, ctx)| {
      FanoutSound(front, ev, ctx, k);
      var i :| 0 <= i < |front| && front[i] == Some(Fn(Fanout(front, ev, ctx)[k].callback));
      assert rs[i] == front[i];
    } else {
      assert rs[|rs| - 1] == Some(Fn(f[k].callback));
    }
  }

  /** Fanout over resolved ids, written from the front. */
  function RunAll(cell: seq<Id>, callbacks: map<Id, Callback<Token>>, ev: Event, ctx: Context): seq<Invocation> {
    if |cell| == 0 then [] else Run(Resolve(callbacks, cell[0]), ev, ctx) + RunAll(cell[1..], callbacks, ev, ctx)
  }

  lemma {:induction false} FanoutIsRunAll(cell: seq<Id>, callbacks: map<Id, Callback<Token>>, ev: Event, ctx: Context)
    ensures Fanout(ResolveAll(callbacks, cell), ev, ctx) == RunAll(cell, callbacks, ev, ctx)
  {
    if |cell| > 0 {
      var n := |cell|;
      var front := cell[..n - 1];
      FanoutIsRunAll(front, callbacks, ev, ctx);
      var rs := ResolveAll(callbacks, cell);
      assert rs[..n - 1] == ResolveAll(callbacks, front);
      RunAllSnoc(front, cell[n - 1], callbacks, ev, ctx);
      assert front + [cell[n - 1]] == cell;
    }
  }

  lemma {:induction false} RunAllSnoc(cell: seq<Id>, last: Id, callbacks: map<Id, Callback<Token>>, ev: Event, ctx: Context)
    ensures RunAll(cell + [last], callbacks, ev, ctx) == RunAll(cell, callbacks, ev, ctx) + Run(Resolve(callbacks, last), ev, ctx)
  {
    if |cell| == 0 {
      assert cell + [last] == [last];
    } else {
      assert (cell + [last])[1..] == cell[1..] + [last];
      RunAllSnoc(cell[1..], last, callbacks, ev, ctx);
    }
  }

  lemma {:induction false} RunAllWithout(cell: seq<Id>, callbacks: map<Id, Callback<Token>>, id: Id, ev: Event, ctx: Context)
    requires id !in callbacks
    ensures RunAll(cell, callbacks, ev, ctx) == RunAll(Without(cell, id), callbacks, ev, ctx)
  {
    if |cell| > 0 {
      RunAllWithout(cell[1..], callbacks, id, ev, ctx);
      if cell[0] != id {
        var w := [cell[0]] + Without(cell[1..], id);
        assert w[0] == cell[0] && w[1..] == Without(cell[1..], id);
      }
    }
  }

  /** Leftover copies of an id with no stored callback produce no runs. */
  lemma LeftoversAreSilent(cell: seq<Id>, callbacks: map<Id, Callback<Token>>, id: Id, ev: Event, ctx: Context)
    requires id !in callbacks
    ensures Fanout(ResolveAll(callbacks, cell), ev, ctx) == Fanout(ResolveAll(callbacks, Without(cell, id)), ev, ctx)
  {
    FanoutIsRunAll(cell, callbacks, ev, ctx);
    FanoutIsRunAll(Without(cell, id), callbacks, ev, ctx);
    RunAllWithout(cell, callbacks, id, ev, ctx);
  }

  // ---------------------------------------------------------------------
  // Context providers
  // ---------------------------------------------------------------------

  /** `Ember.assign(context, result)`; an `undefined` result adds nothing. */
  function Assign(ctx: Ctx, result: Option<Ctx>): Ctx {
    match result
    case None => ctx
    case Some(r) => ctx + r
  }

  /** The left fold of `_getApplicationContext` / `_getUserContext`. */
  function MergeProviders(ids: seq<string>, providers: map<string, Callback<Ctx>>): Ctx
    requires forall i :: 0 <= i < |ids| ==> ids[i] in providers
  {
    if |ids| == 0 then map[]
    else Assign(MergeProviders(ids[..|ids| - 1], providers), ExecuteCallback(providers[ids[|ids| - 1]]))
  }

  /** Provider i supplies key k: it is a function whose result has k. */
  ghost predicate Supplies(ids: seq<string>, providers: map<string, Callback<Ctx>>, i: int, k: string)
    requires forall i :: 0 <= i < |ids| ==> ids[i] in providers
  {
    0 <= i < |ids| && providers[ids[i]].Fn? && k in providers[ids[i]].body
  }

  /**
   * The merged context holds exactly the keys some function provider
   * returns, and each with the value of the LAST provider (in key order)
   * that returns it.
   */
  lemma {:induction false} MergeProvidersLastWins(ids: seq<string>, providers: map<string, Callback<Ctx>>, k: string)
    requires forall i :: 0 <= i < |ids| ==> ids[i] in providers
    ensures k in MergeProviders(ids, providers) <==> exists i :: Supplies(ids, providers, i, k)
    ensures forall i :: Supplies(ids, providers, i, k) && (forall j :: i < j < |ids| ==> !Supplies(ids, providers, j, k))
              ==> MergeProviders(ids, providers)[k] == providers[ids[i]].body[k]
  {
    if |ids| > 0 {
      var n := |ids|;
      var front := ids[..n - 1];
      MergeProvidersLastWins(front, providers, k);
      var m := MergeProviders(front, providers);
      var cb := providers[ids[n - 1]];
      var merged := MergeProviders(ids, providers);
      assert merged == Assign(m, ExecuteCallback(cb));
      forall i | 0 <= i < n - 1 ensures Supplies(ids, providers, i, k) == Supplies(front, providers, i, k) {
        assert front[i] == ids[i];
      }
      if cb.Fn? && k in cb.body {
        assert Supplies(ids, providers, n - 1, k);
        assert merged[k] == cb.body[k];
      } else {
        assert !Supplies(ids, providers, n - 1, k);
        assert k in merged <==> k in m;
        assert k in m ==> merged[k] == m[k];
        forall i | Supplies(ids, providers, i, k) && (forall j :: i < j < n ==> !Supplies(ids, providers, j, k))
          ensures merged[k] == providers[ids[i]].body[k]
        {
          assert Supplies(front, providers, i, k);
          assert forall j :: i < j < |front| ==> !Supplies(ids, providers, j, k);
        }
      }
    }
  }

  // ---------------------------------------------------------------------
  // The whole of `_sendEvent`
  // ---------------------------------------------------------------------

  /** `_sendEvent(level, tag, name, metadata)` on the given state. */
  function Dispatch(table: Table, callbacks: map<Id, Callback<Token>>,
                    app: Dict<Callback<Ctx>>, user: Dict<Callback<Ctx>>,
                    level: Level, tag: Tag, name: string, metadata: Metadata): Delivery
  {
    var rs := Callbacks(table, callbacks, level, tag);
    if |rs| == 0 then Skipped
    else
      var ctx := Context(MergeProviders(app.keys, app.entries), MergeProviders(user.keys, user.entries));
      Delivered(ctx, Fanout(rs, Event(name, tag, level, metadata), ctx))
  }

  /**
   * Dispatch is skipped exactly when the cell is missing or empty; otherwise
   * the context is the merge of both provider collections and every bare
   * function of the cell runs, in order, with the event
   * `{name, type: tag, level, metadata}`.
   */
  lemma DispatchEffect(table: Table, callbacks: map<Id, Callback<Token>>,
                       app: Dict<Callback<Ctx>>, user: Dict<Callback<Ctx>>,
                       level: Level, tag: Tag, name: string, metadata: Metadata)
    ensures var d := Dispatch(table, callbacks, app, user, level, tag, name, metadata);
            && (d.Skipped? <==> Listeners(table, level, tag) == [])
            && (d.Delivered? ==>
                  && d.context == Context(MergeProviders(app.keys, app.entries), MergeProviders(user.keys, user.entries))
                  && |d.calls| == Runnable(Callbacks(table, callbacks, level, tag))
                  && forall k :: 0 <= k < |d.calls| ==>
                       d.calls[k].event == Event(name, tag, level, metadata) && d.calls[k].context == d.context)
  {
    var d := Dispatch(table, callbacks, app, user, level, tag, name, metadata);
    if d.Delivered? {
      FanoutOrder(Callbacks(table, callbacks, level, tag), Event(name, tag, level, metadata), d.context);
    }
  }

  /** Some consumer listed in the cell has `fn` as its stored callback. */
  ghost predicate ListenerOwns(table: Table, callbacks: map<Id, Callback<Token>>, level: Level, tag: Tag, fn: Token) {
    exists id :: id in Listeners(table, level, tag) && id in callbacks && callbacks[id] == Fn(fn)
  }

  /**
   * Only listeners run: every callback run during a dispatch is the stored
   * function of a consumer listed in the event's cell.
   */
  lemma OnlyListenersRun(table: Table, callbacks: map<Id, Callback<Token>>,
                         app: Dict<Callback<Ctx>>, user: Dict<Callback<Ctx>>,
                         level: Level, tag: Tag, name: string, metadata: Metadata)
    ensures var d := Dispatch(table, callbacks, app, user, level, tag, name, metadata);
            d.Delivered? ==>
              forall k :: 0 <= k < |d.calls| ==> ListenerOwns(table, callbacks, level, tag, d.calls[k].callback)
  {
    var d := Dispatch(table, callbacks, app, user, level, tag, name, metadata);
    if d.Delivered? {
      var rs := Callbacks(table, callbacks, level, tag);
      var ev := Event(name, tag, level, metadata);
      assert d.calls == Fanout(rs, ev, d.context);
      var cell := Listeners(table, level, tag);
      forall k | 0 <= k < |d.calls|
        ensures ListenerOwns(table, callbacks, level, tag, d.calls[k].callback)
      {
        FanoutSound(rs, ev, d.context, k);
        var i :| 0 <= i < |rs| && rs[i] == Some(Fn(d.calls[k].callback));
        assert cell[i] in cell;
        assert cell[i] in callbacks && callbacks[cell[i]] == Fn(d.calls[k].callback);
      }
    }
  }

  /**
   * Every listener runs: a consumer listed in the event's cell whose stored
   * callback is a function is called with the event and the context.
   */
  lemma ListenersRun(table: Table, callbacks: map<Id, Callback<Token>>,
                     app: Dict<Callback<Ctx>>, user: Dict<Callback<Ctx>>,
                     level: Level, tag: Tag, name: string, metadata: Metadata, id: Id, fn: Token)
    requires id in Listeners(table, level, tag) && id in callbacks && callbacks[id] == Fn(fn)
    ensures var d := Dispatch(table, callbacks, app, user, level, tag, name, metadata);
            && d.Delivered?
            && exists k :: 0 <= k < |d.calls| && d.calls[k] == Invocation(fn, Event(name, tag, level, metadata), d.context)
  {
    var d := Dispatch(table, callbacks, app, user, level, tag, name, metadata);
    var rs := Callbacks(table, callbacks, level, tag);
    var cell := Listeners(table, level, tag);
    var i := IndexOf(cell, id);
    assert rs[i] == Some(Fn(fn));
    FanoutOrder(rs, Event(name, tag, level, metadata), d.context);
    assert d.calls[Runnable(rs[..i])] == Invocation(fn, Event(name, tag, level, metadata), d.context);
  }

  /**
   * A consumer registered for a level name and a tag is listed in that
   * cell afterwards, so with a function callback it receives every event of
   * that level and tag.
   */
  lemma RegisteredConsumerListens(table: Table, levels: seq<string>, ts: seq<Tag>, id: Id, l: Level, t: Tag)
    requires LevelName(l) in levels && t in ts
    ensures id in Listeners(Subscribe(AddTags(table, ts), levels, ts, id), l, t)
  {
    var base := AddTags(table, ts);
    SubscribeCell(base, levels, ts, id, l, t);
    MulIsProduct(Count(levels, LevelName(l)), Count(ts, t));
    var n := Count(levels, LevelName(l)) * Count(ts, t);
    assert n >= 1;
    assert Subscribe(base, levels, ts, id).At(l)[t][|base.At(l)[t]|] == id;
  }

  // ---------------------------------------------------------------------
  // The environment guard of `registerConsumer`
  // ---------------------------------------------------------------------

  /** An entry of the `environments` argument. */
  datatype EnvEntry = EnvName(name: string) | EnvFlag(flag: bool) | EnvUndefined

  /**
   * The service's `currentEnvironment`: `null` until something sets it,
   * `undefined` once it is set from a configuration that has no
   * `environment`, otherwise a string.
   */
  datatype CurrentEnv = Null | Undefined | Named(name: string)

  predicate IsDigit(c: char) { '0' <= c <= '9' }

  /**
   * `currentEnvironment >= 0`: `null` compares as 0, `undefined` as NaN;
   * a string compares by its numeric value, which only the empty string
   * and decimal digit strings have here (every other string is NaN).
   */
  function AtLeastZero(current: CurrentEnv): bool {
    match current
    case Null => true
    case Undefined => false
    case Named(s) => forall i :: 0 <= i < |s| ==> IsDigit(s[i])
  }

  /**
   * `!environments.indexOf(currentEnvironment >= 0)`: the argument of
   * `indexOf` is the boolean comparison, so the early return is taken
   * exactly when that boolean is at index 0.
   */
  predicate GuardReturnsEarly(envs: seq<EnvEntry>, current: CurrentEnv) {
    IndexOf(envs, EnvFlag(AtLeastZero(current))) == 0
  }

  lemma GuardReturnsEarlyIff(envs: seq<EnvEntry>, current: CurrentEnv)
    ensures GuardReturnsEarly(envs, current) <==> |envs| > 0 && envs[0] == EnvFlag(AtLeastZero(current))
  {
  }

  /** A list of environment names (or an omitted argument) never stops registration. */
  lemma NamesNeverGate(envs: seq<EnvEntry>, current: CurrentEnv)
    requires forall i :: 0 <= i < |envs| ==> !envs[i].EnvFlag?
    ensures !GuardReturnsEarly(envs, current)
  {
  }

  /**
   * Before anything sets the environment (`null`), a leading `true` stops
   * registration; once it is set to `undefined` or to a name that is not
   * numeric, a leading `false` does.
   */
  lemma FlagGate(rest: seq<EnvEntry>, name: string)
    requires exists i :: 0 <= i < |name| && !IsDigit(name[i])
    ensures GuardReturnsEarly([EnvFlag(true)] + rest, Null)
    ensures !GuardReturnsEarly([EnvFlag(false)] + rest, Null)
    ensures GuardReturnsEarly([EnvFlag(false)] + rest, Undefined)
    ensures !GuardReturnsEarly([EnvFlag(true)] + rest, Undefined)
    ensures GuardReturnsEarly([EnvFlag(false)] + rest, Named(name))
  {
  }

  lemma OtherEnvironmentNotGated()
    ensures !GuardReturnsEarly([EnvName("production"), EnvName("development")], Named("test"))
  {
  }
}
