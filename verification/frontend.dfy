/** `objectPathToObject` from `js/frontend.js`: a null-safe walk along a key path. */
module Frontend {
  import opened JsValues

  /**
   * What the walk reaches: each key is followed in turn, and the walk stops
   * with null as soon as the current value or the next field is null or
   * undefined.
   */
  function Follow(v: Value, path: seq<string>): Value
    decreases |path|
  {
    if |path| == 0 then v
    else if IsNullish(v) || IsNullish(Get(v, path[0])) then Null
    else Follow(Get(v, path[0]), path[1..])
  }

  /** The loop of `objectPathToObject(start, path)`, with its early return. */
  method ObjectPathToObject(start: Value, path: seq<string>) returns (r: Value)
    ensures r == Follow(start, path)
  {
    var obj := start;
    var i := 0;
    while i < |path|
      invariant 0 <= i <= |path|
      invariant Follow(start, path) == Follow(obj, path[i..])
    {
      if IsNullish(obj) || IsNullish(Get(obj, path[i])) {
        return Null;
      }
      assert path[i..][1..] == path[i + 1..];
      obj := Get(obj, path[i]);
      i := i + 1;
    }
    r := obj;
  }

  /** The empty path returns the start value itself, whatever it is. */
  lemma FollowEmpty(v: Value)
    ensures Follow(v, []) == v
  {
  }

  /** A non-empty walk never ends on `undefined`: a missing field turns into null. */
  lemma {:induction false} FollowNeverUndefined(v: Value, path: seq<string>)
    requires |path| > 0
    ensures Follow(v, path) != Undefined
    decreases |path|
  {
    if !(IsNullish(v) || IsNullish(Get(v, path[0]))) && |path| > 1 {
      FollowNeverUndefined(Get(v, path[0]), path[1..]);
    }
  }

  /**
   * Falsy fields that are not null (`false`, `0`, `""`) are found, because the
   * test is `== null` and not truthiness.
   */
  lemma FollowFindsFalsy(v: Value, key: string)
    requires !IsNullish(v) && !Truthy(Get(v, key)) && !IsNullish(Get(v, key))
    ensures Follow(v, [key]) == Get(v, key)
  {
  }

  /** A walk that meets a nullish field yields null, whatever keys follow. */
  lemma {:induction false} FollowNull(path: seq<string>)
    requires |path| > 0
    ensures Follow(Null, path) == Null && Follow(Undefined, path) == Null
  {
  }

  /** Following `p` and then `q` from where `p` ended is the same as following `p + q`. */
  lemma {:induction false} FollowConcat(v: Value, p: seq<string>, q: seq<string>)
    ensures Follow(Follow(v, p), q) == Follow(v, p + q)
    decreases |p|
  {
    if |p| == 0 {
      assert p + q == q;
    } else {
      assert (p + q)[0] == p[0] && (p + q)[1..] == p[1..] + q;
      if IsNullish(v) || IsNullish(Get(v, p[0])) {
        if |q| > 0 { FollowNull(q); }
      } else {
        FollowConcat(Get(v, p[0]), p[1..], q);
      }
    }
  }

  /**
   * When no step meets null or undefined, the walk reaches exactly the value
   * obtained by reading each key in turn.
   */
  function Read(v: Value, path: seq<string>): Value
    decreases |path|
  {
    if |path| == 0 then v else Read(Get(v, path[0]), path[1..])
  }

  predicate NoNullStep(v: Value, path: seq<string>)
    decreases |path|
  {
    |path| == 0 || (!IsNullish(v) && !IsNullish(Get(v, path[0])) && NoNullStep(Get(v, path[0]), path[1..]))
  }

  lemma {:induction false} FollowReads(v: Value, path: seq<string>)
    ensures NoNullStep(v, path) ==> Follow(v, path) == Read(v, path)
    ensures !NoNullStep(v, path) ==> Follow(v, path) == Null
    decreases |path|
  {
    if |path| > 0 && !(IsNullish(v) || IsNullish(Get(v, path[0]))) {
      FollowReads(Get(v, path[0]), path[1..]);
    }
  }
}
