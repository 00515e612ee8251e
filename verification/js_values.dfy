/**
 * JavaScript values as the engine's dynamic code sees them: the settings
 * read from a scene file (stored without any type check), immovability flags
 * that may hold an array, and the values `objectPathToObject` walks through.
 */
module JsValues {
  import opened Wrappers
  import opened Text

  datatype Value =
    | Undefined
    | Null
    | JBool(b: bool)
    | JNum(n: real)
    | JStr(s: string)
    | JArr(items: seq<Value>)
    | JObj(fields: map<string, Value>)

  /** JavaScript truthiness (NaN is not modelled, so the only falsy number is 0). */
  predicate Truthy(v: Value) {
    match v
    case Undefined => false
    case Null => false
    case JBool(b) => b
    case JNum(n) => n != 0.0
    case JStr(s) => s != ""
    case _ => true
  }

  /** `v == null`: loose equality with null holds exactly for null and undefined. */
  predicate IsNullish(v: Value) {
    v == Undefined || v == Null
  }

  /** A property key that names an array element: a decimal numeral without leading zeros. */
  function ArrayIndex(key: string): (r: Option<nat>)
    ensures r.Some? ==> key == NatToString(r.value)
  {
    if key != [] && (forall i :: 0 <= i < |key| ==> IsDigit(key[i])) && (|key| == 1 || key[0] != '0')
    then
      CanonicalNumeral(key);
      Some(DigitsValue(key, 10))
    else None
  }

  /**
   * `v[key]` for a value that is not null or undefined: an own property of an
   * object, an element or the length of an array or string; any other key
   * reads `undefined` (prototype methods are not modelled).
   */
  function Get(v: Value, key: string): Value {
    match v
    case JObj(fields) => if key in fields then fields[key] else Undefined
    case JArr(items) =>
      if key == "length" then JNum(|items| as real)
      else
        var ix := ArrayIndex(key);
        if ix.Some? && ix.value < |items| then items[ix.value] else Undefined
    case JStr(s) =>
      if key == "length" then JNum(|s| as real)
      else
        var ix := ArrayIndex(key);
        if ix.Some? && ix.value < |s| then JStr([s[ix.value]]) else Undefined
    case _ => Undefined
  }

  lemma {:induction false} CanonicalNumeral(key: string)
    requires key != [] && forall i :: 0 <= i < |key| ==> IsDigit(key[i])
    requires |key| == 1 || key[0] != '0'
    ensures key == NatToString(DigitsValue(key, 10))
  {
    if |key| > 1 {
      var init := key[..|key| - 1];
      CanonicalNumeral(init);
      DigitsValuePositive(init);
      var n := DigitsValue(key, 10);
      assert n / 10 == DigitsValue(init, 10);
      assert n % 10 == key[|key| - 1] as int - '0' as int;
      assert key == init + [key[|key| - 1]];
    }
  }

  lemma {:induction false} DigitsValuePositive(s: string)
    requires s != [] && s[0] != '0' && forall i :: 0 <= i < |s| ==> IsDigit(s[i])
    ensures DigitsValue(s, 10) >= 1
  {
    if |s| > 1 {
      DigitsValuePositive(s[..|s| - 1]);
    }
  }

  // ---------------------------------------------------------------------------
  // Objects used as dictionaries

  /**
   * `order` lists the keys of `pool`, each once: the order in which
   * `for (k in pool)` and `Object.values(pool)` visit them.
   */
  ghost predicate Enumerates<T>(order: seq<string>, pool: map<string, T>) {
    (forall k :: k in pool <==> k in order) &&
    (forall i, j :: 0 <= i < j < |order| ==> order[i] != order[j])
  }

  /** `Object.values(pool)`: the value of every key, in enumeration order. */
  function Values<T>(pool: map<string, T>, order: seq<string>): (vs: seq<T>)
    requires Enumerates(order, pool)
    ensures |vs| == |order|
    ensures forall i :: 0 <= i < |order| ==> vs[i] == pool[order[i]]
  {
    seq(|order|, i requires 0 <= i < |order| => pool[order[i]])
  }

  /** An enumeration visits exactly as many keys as the dictionary has: one value per entry. */
  lemma {:induction false} EnumeratesSize<T>(order: seq<string>, pool: map<string, T>)
    requires Enumerates(order, pool)
    ensures |order| == |pool|
  {
    if |order| == 0 {
      assert pool.Keys == {};
    } else {
      var k := order[|order| - 1];
      var rest := map key | key in pool && key != k :: pool[key];
      assert Enumerates(order[..|order| - 1], rest);
      EnumeratesSize(order[..|order| - 1], rest);
      assert pool.Keys == rest.Keys + {k};
    }
  }

  /** Every value of the dictionary is among `Object.values`, and nothing else is. */
  lemma ValuesComplete<T>(pool: map<string, T>, order: seq<string>)
    requires Enumerates(order, pool)
    ensures forall v :: v in Values(pool, order) <==> v in pool.Values
  {
    var vs := Values(pool, order);
    forall v | v in pool.Values ensures v in vs {
      var k :| k in pool && pool[k] == v;
      var i :| 0 <= i < |order| && order[i] == k;
      assert vs[i] == v;
    }
  }
}
