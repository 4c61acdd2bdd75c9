/**
 * JavaScript values the logging addon works with, reduced to what its code
 * observes: optional values, insertion-ordered objects used as dictionaries,
 * "a value or an array of values" arguments, and thrown error values.
 */
module JsValues {

  datatype Option<T> = None | Some(value: T) {
    function GetOr(default: T): T {
      match this
      case Some(v) => v
      case None => default
    }
  }

  // ---------------------------------------------------------------------
  // Sequence helpers
  // ---------------------------------------------------------------------

  /** `Array.prototype.indexOf`: the first index holding x, or -1. */
  function IndexOf<T(==)>(s: seq<T>, x: T): (i: int)
    ensures -1 <= i < |s|
    ensures i == -1 <==> x !in s
    ensures 0 <= i ==> s[i] == x && x !in s[..i]
  {
    if |s| == 0 then -1
    else if s[0] == x then 0
    else
      var j := IndexOf(s[1..], x);
      if j < 0 then -1 else j + 1
  }

  /** The subsequence of s of the elements different from x, in order. */
  function Without<T(==,!new)>(s: seq<T>, x: T): (r: seq<T>)
    ensures forall y :: y in r <==> y in s && y != x
    ensures |r| <= |s|
  {
    if |s| == 0 then []
    else if s[0] == x then Without(s[1..], x)
    else [s[0]] + Without(s[1..], x)
  }

  /** n copies of x. */
  function Repeat<T(!new)>(x: T, n: nat): (r: seq<T>)
    ensures |r| == n
    ensures forall y :: y in r ==> y == x
  {
    seq(n, _ => x)
  }

  lemma RepeatAdd<T(!new)>(x: T, a: nat, b: nat)
    ensures Repeat(x, a) + Repeat(x, b) == Repeat(x, a + b)
  {
  }

  /** How many times x occurs in s. */
  function Count<T(==)>(s: seq<T>, x: T): (n: nat)
    ensures n <= |s|
    ensures n == 0 <==> x !in s
  {
    if |s| == 0 then 0
    else Count(s[..|s| - 1], x) + (if s[|s| - 1] == x then 1 else 0)
  }

  /** a * c, unfolded one row at a time. */
  function Mul(a: nat, c: nat): nat {
    if a == 0 then 0 else Mul(a - 1, c) + c
  }

  lemma {:induction false} MulIsProduct(a: nat, c: nat)
    ensures Mul(a, c) == a * c
  {
    if a > 0 {
      MulIsProduct(a - 1, c);
    }
  }

  /** The elements of s are pairwise distinct. */
  predicate Distinct<T(==)>(s: seq<T>) {
    forall i, j :: 0 <= i < j < |s| ==> s[i] != s[j]
  }

  lemma {:induction false} DistinctCount<T>(s: seq<T>, x: T)
    requires Distinct(s)
    ensures Count(s, x) <= 1
  {
    if |s| > 0 {
      var front := s[..|s| - 1];
      assert Distinct(front);
      DistinctCount(front, x);
      if s[|s| - 1] == x {
        assert x !in front;
      }
    }
  }

  lemma {:induction false} WithoutDistinct<T(!new)>(s: seq<T>, x: T)
    requires Distinct(s)
    ensures Distinct(Without(s, x))
  {
    if |s| > 0 {
      assert Distinct(s[1..]);
      WithoutDistinct(s[1..], x);
      if s[0] != x {
        var r := [s[0]] + Without(s[1..], x);
        forall i, j | 0 <= i < j < |r| ensures r[i] != r[j] {
          if i == 0 {
            assert r[j] in Without(s[1..], x);
            assert s[0] !in s[1..];
          }
        }
      }
    }
  }

  /** Dropping x from a sequence that does not hold it changes nothing. */
  lemma {:induction false} WithoutAbsent<T(!new)>(s: seq<T>, x: T)
    requires x !in s
    ensures Without(s, x) == s
  {
    if |s| > 0 {
      WithoutAbsent(s[1..], x);
      assert [s[0]] + s[1..] == s;
    }
  }

  lemma {:induction false} WithoutAppend<T(!new)>(s: seq<T>, t: seq<T>, x: T)
    ensures Without(s + t, x) == Without(s, x) + Without(t, x)
  {
    if |s| == 0 {
      assert s + t == t;
    } else {
      assert (s + t)[1..] == s[1..] + t;
      WithoutAppend(s[1..], t, x);
    }
  }

  // ---------------------------------------------------------------------
  // Plain JavaScript objects used as dictionaries
  // ---------------------------------------------------------------------

  /**
   * A plain object with string keys: `keys` is the order `Object.keys`
   * reports (insertion order for the non-numeric keys this model uses) and
   * `entries` the key/value pairs.
   */
  datatype JsObject<V> = JsObject(keys: seq<string>, entries: map<string, V>) {
    predicate Wf() {
      && Distinct(keys)
      && (forall k :: k in entries ==> k in keys)
      && (forall i :: 0 <= i < |keys| ==> keys[i] in entries)
    }
  }

  /** A well-formed object: each key occurs once in the key order. */
  type Dict<V> = o: JsObject<V> | o.Wf() witness JsObject([], map[])

  function EmptyDict<V>(): (d: Dict<V>)
    ensures d.keys == [] && d.entries == map[]
  {
    JsObject([], map[])
  }

  /**
   * `o[k] = v`: an existing key keeps its place in the key order; a new key
   * goes to the end.
   */
  function Put<V>(d: Dict<V>, k: string, v: V): (r: Dict<V>)
    ensures r.entries == d.entries[k := v]
    ensures k in d.entries ==> r.keys == d.keys
    ensures k !in d.entries ==> r.keys == d.keys + [k]
  {
    if k in d.entries then JsObject(d.keys, d.entries[k := v])
    else
      var r := JsObject(d.keys + [k], d.entries[k := v]);
      assert r.Wf() by {
        assert k !in d.keys;
      }
      r
  }

  /** `delete o[k]`: the key leaves both the order and the entries. */
  function Delete<V>(d: Dict<V>, k: string): (r: Dict<V>)
    ensures r.entries == d.entries - {k}
    ensures r.keys == Without(d.keys, k)
  {
    WithoutDistinct(d.keys, k);
    var r := JsObject(Without(d.keys, k), d.entries - {k});
    assert forall i :: 0 <= i < |r.keys| ==> r.keys[i] in r.keys;
    r
  }

  /** Adding a new key and deleting it again gives the object back, key order included. */
  lemma PutThenDelete<V>(d: Dict<V>, k: string, v: V)
    requires k !in d.entries
    ensures Delete(Put(d, k, v), k) == d
  {
    assert k !in d.keys;
    WithoutAppend(d.keys, [k], k);
    WithoutAbsent(d.keys, k);
    assert Without([k], k) == [];
    assert Delete(Put(d, k, v), k).keys == d.keys;
  }

  /** Deleting a key that is absent changes nothing. */
  lemma DeleteAbsent<V>(d: Dict<V>, k: string)
    requires k !in d.entries
    ensures Delete(d, k) == d
  {
    assert k !in d.keys;
    WithoutAbsent(d.keys, k);
  }

  // ---------------------------------------------------------------------
  // Arguments that accept one value or an array of values
  // ---------------------------------------------------------------------

  datatype Arg<T> = One(item: T) | Many(items: seq<T>)

  /** `Ember.isArray(x) ? x : [x]` */
  function AsList<T>(a: Arg<T>): (r: seq<T>)
    ensures a.One? ==> r == [a.item]
    ensures a.Many? ==> r == a.items
  {
    match a
    case One(x) => [x]
    case Many(xs) => xs
  }

  // ---------------------------------------------------------------------
  // Thrown values
  // ---------------------------------------------------------------------

  /**
   * A value that reaches an error handler. Strings play the part of
   * JavaScript's falsy `undefined`/`""` when they are empty; `status` is
   * `None` when the property is absent.
   *  - PlainObject: something `Ember.typeOf` calls an 'object' (an adapter
   *    payload, a jqXHR), with its `name`, `isAdapterError`, `responseText`,
   *    `message`, `status` and what its `toString()` yields;
   *  - ErrorInstance: an `Error` (`Ember.typeOf` says 'error');
   *  - Primitive: a string or number thrown as is.
   */
  datatype Thrown =
    | PlainObject(name: string, isAdapterError: bool, responseText: string,
                  message: string, status: Option<int>, asString: string)
    | ErrorInstance(name: string, isAdapterError: bool, message: string, status: Option<int>)
    | Primitive(text: string)
}
