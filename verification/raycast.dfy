/**
 * The ray picking of `js/GameEngine.js`: the slab test `rayAABBIntersect`
 * and the closest-hit choice `castRay` makes from its results.
 */
module RayCasting {
  import opened Wrappers
  import opened Numbers
  import opened Utils
  import opened WorldObjects
  import opened Physics

  /** `Number.MAX_VALUE`, the distance `castRay` reports when nothing is hit. */
  const MaxValue: real := 179769313486231570814527423731704356798070567525844996598917476803157260780028538760589558632766878171540458953514382464234321326889464182768467546703537516986049910576551282076245490090389328944075868508455133942304583236903222948165808559332123348274797826204144723168738177180919299881250404026184124858368.0

  /** One coordinate of the ray's point at parameter `t`. */
  function Along(o: real, d: real, t: real): real {
    o + t * d
  }

  /** The point `o + t * d` of the ray. */
  function At(o: Vec3, d: Vec3, t: real): Vec3 {
    Vec3(Along(o.x, d.x, t), Along(o.y, d.y, t), Along(o.z, d.z, t))
  }

  /** No division of the test is 0/0 (a bound level with the origin along an axis the ray does not move on). */
  predicate RayDefined(o: Vec3, d: Vec3, b: Bounds) {
    DivDefined(Minus(b.minX, o.x), d.x) && DivDefined(Minus(b.maxX, o.x), d.x) &&
    DivDefined(Minus(b.minY, o.y), d.y) && DivDefined(Minus(b.maxY, o.y), d.y) &&
    DivDefined(Minus(b.minZ, o.z), d.z) && DivDefined(Minus(b.maxZ, o.z), d.z)
  }

  /**
   * The ray parameters at which it meets the two planes of one axis, the
   * smaller first (the swap for a negative direction).
   */
  function Slab(lo: Ext, hi: Ext, o: real, d: real): (s: (Ext, Ext))
    requires DivDefined(Minus(lo, o), d) && DivDefined(Minus(hi, o), d)
    ensures Le(s.0, s.1)
  {
    var t0 := Div(Minus(lo, o), d);
    var t1 := Div(Minus(hi, o), d);
    if Lt(t1, t0) then (t1, t0) else (t0, t1)
  }

  function SlabX(o: Vec3, d: Vec3, b: Bounds): (Ext, Ext)
    requires RayDefined(o, d, b)
  {
    Slab(b.minX, b.maxX, o.x, d.x)
  }

  function SlabY(o: Vec3, d: Vec3, b: Bounds): (Ext, Ext)
    requires RayDefined(o, d, b)
  {
    Slab(b.minY, b.maxY, o.y, d.y)
  }

  function SlabZ(o: Vec3, d: Vec3, b: Bounds): (Ext, Ext)
    requires RayDefined(o, d, b)
  {
    Slab(b.minZ, b.maxZ, o.z, d.z)
  }

  /** Where the ray enters the box: the latest entry over the three slabs. */
  function Entry(o: Vec3, d: Vec3, b: Bounds): Ext
    requires RayDefined(o, d, b)
  {
    Max(Max(SlabX(o, d, b).0, SlabY(o, d, b).0), SlabZ(o, d, b).0)
  }

  /** Where the ray leaves the box: the earliest exit over the three slabs. */
  function Exit(o: Vec3, d: Vec3, b: Bounds): Ext
    requires RayDefined(o, d, b)
  {
    Min(Min(SlabX(o, d, b).1, SlabY(o, d, b).1), SlabZ(o, d, b).1)
  }

  /**
   * `rayAABBIntersect(rayO, rayD, AABB)`: narrow the x slab by the y slab,
   * then by the z slab, giving up as soon as they are disjoint; answer the
   * entry parameter if it is not negative, `false` (`None`) otherwise. The
   * final narrowing of the exit by the z slab does not affect the answer.
   * The result is the entry of the three slabs when they overlap and the
   * entry is not behind the origin, and a miss otherwise.
   */
  function RayAABBIntersect(o: Vec3, d: Vec3, b: Bounds): Option<Ext>
    requires RayDefined(o, d, b)
  {
    var sx := SlabX(o, d, b);
    var sy := SlabY(o, d, b);
    if Lt(sy.1, sx.0) || Lt(sx.1, sy.0) then None
    else
      var tMin := if Lt(sx.0, sy.0) then sy.0 else sx.0;
      var tMax := if Lt(sy.1, sx.1) then sy.1 else sx.1;
      var sz := SlabZ(o, d, b);
      if Lt(sz.1, tMin) || Lt(tMax, sz.0) then None
      else
        var tEntry := if Lt(tMin, sz.0) then sz.0 else tMin;
        if Lt(tEntry, Fin(0.0)) then None else Some(tEntry)
  }

  /**
   * The result is the entry of the three slabs when they overlap and the
   * entry is not behind the origin, and a miss otherwise.
   */
  lemma RayAABBIntersectMeaning(o: Vec3, d: Vec3, b: Bounds)
    requires RayDefined(o, d, b)
    ensures var r := RayAABBIntersect(o, d, b);
            (r.Some? <==> Le(Entry(o, d, b), Exit(o, d, b)) && Le(Fin(0.0), Entry(o, d, b))) &&
            (r.Some? ==> r.value == Entry(o, d, b))
  {
    var sx, sy, sz := SlabX(o, d, b), SlabY(o, d, b), SlabZ(o, d, b);
    var tMin, tMax := Max(sx.0, sy.0), Min(sx.1, sy.1);
    Narrow(sx.0, sx.1, sy.0, sy.1);
    if Lt(tMax, tMin) {
      LeLtTrans(Exit(o, d, b), tMax, tMin);
      LtLeTrans(Exit(o, d, b), tMin, Entry(o, d, b));
    } else {
      Narrow(tMin, tMax, sz.0, sz.1);
    }
  }

  /** Two intervals are disjoint exactly when the earlier end comes before the later start. */
  lemma Narrow(a0: Ext, a1: Ext, b0: Ext, b1: Ext)
    requires Le(a0, a1) && Le(b0, b1)
    ensures (Lt(b1, a0) || Lt(a1, b0)) <==> Lt(Min(a1, b1), Max(a0, b0))
  {
  }

  /** `a / d <= t` exactly when `a <= t * d`, for a positive `d`. */
  lemma DivLe(a: real, d: real, t: real)
    requires d > 0.0
    ensures a / d <= t <==> a <= t * d
    ensures t <= a / d <==> t * d <= a
  {
    assert (a / d) * d == a;
    assert t * d - a == (t - a / d) * d;
  }

  /** `a / d <= t` exactly when `a >= t * d`, for a negative `d`. */
  lemma DivLeNeg(a: real, d: real, t: real)
    requires d < 0.0
    ensures a / d <= t <==> t * d <= a
    ensures t <= a / d <==> a <= t * d
  {
    assert (a / d) * d == a;
    assert t * d - a == (t - a / d) * d;
  }

  /** The ray is in one axis's slab at `t` exactly when its point lies between that axis's bounds. */
  lemma SlabContains(lo: Ext, hi: Ext, o: real, d: real, t: real)
    requires DivDefined(Minus(lo, o), d) && DivDefined(Minus(hi, o), d) && Le(lo, hi)
    ensures Le(Slab(lo, hi, o, d).0, Fin(t)) && Le(Fin(t), Slab(lo, hi, o, d).1) <==>
              Le(lo, Fin(Along(o, d, t))) && Le(Fin(Along(o, d, t)), hi)
  {
    if d > 0.0 {
      if lo.Fin? { DivLe(lo.v - o, d, t); }
      if hi.Fin? { DivLe(hi.v - o, d, t); }
      if lo.Fin? && hi.Fin? { DivLe(lo.v - o, d, (hi.v - o) / d); }
    } else if d < 0.0 {
      if lo.Fin? { DivLeNeg(lo.v - o, d, t); }
      if hi.Fin? { DivLeNeg(hi.v - o, d, t); }
      if lo.Fin? && hi.Fin? { DivLeNeg(hi.v - o, d, (lo.v - o) / d); }
    }
  }

  /** The ray is in all three slabs at `t` exactly when its point at `t` is in the box. */
  lemma SlabsContain(o: Vec3, d: Vec3, b: Bounds, t: real)
    requires RayDefined(o, d, b) && Ordered(b)
    ensures Le(Entry(o, d, b), Fin(t)) && Le(Fin(t), Exit(o, d, b)) <==> InBox(b, At(o, d, t))
  {
    var sx, sy, sz := SlabX(o, d, b), SlabY(o, d, b), SlabZ(o, d, b);
    var p := At(o, d, t);
    var inX := Le(b.minX, Fin(p.x)) && Le(Fin(p.x), b.maxX);
    var inY := Le(b.minY, Fin(p.y)) && Le(Fin(p.y), b.maxY);
    var inZ := Le(b.minZ, Fin(p.z)) && Le(Fin(p.z), b.maxZ);
    assert InBox(b, p) == (inX && inY && inZ);
    assert Le(sx.0, Fin(t)) && Le(Fin(t), sx.1) <==> inX by {
      SlabContains(b.minX, b.maxX, o.x, d.x, t);
    }
    assert Le(sy.0, Fin(t)) && Le(Fin(t), sy.1) <==> inY by {
      SlabContains(b.minY, b.maxY, o.y, d.y, t);
    }
    assert Le(sz.0, Fin(t)) && Le(Fin(t), sz.1) <==> inZ by {
      SlabContains(b.minZ, b.maxZ, o.z, d.z, t);
    }
    MaxLe(sx.0, sy.0, Fin(t));
    MaxLe(Max(sx.0, sy.0), sz.0, Fin(t));
    LeMin(sx.1, sy.1, Fin(t));
    LeMin(Min(sx.1, sy.1), sz.1, Fin(t));
  }

  lemma MaxLe(a: Ext, b: Ext, c: Ext)
    ensures Le(Max(a, b), c) <==> Le(a, c) && Le(b, c)
  {
  }

  lemma LeMin(a: Ext, b: Ext, c: Ext)
    ensures Le(c, Min(a, b)) <==> Le(c, a) && Le(c, b)
  {
  }

  /**
   * A finite hit is the first point of the forward ray inside the box: it
   * is in the box, and no point of the ray inside the box comes earlier.
   */
  lemma HitIsFirstPointInBox(o: Vec3, d: Vec3, b: Bounds, t: real)
    requires RayDefined(o, d, b) && Ordered(b)
    requires RayAABBIntersect(o, d, b) == Some(Fin(t))
    ensures t >= 0.0 && InBox(b, At(o, d, t))
    ensures forall s :: InBox(b, At(o, d, s)) ==> t <= s
  {
    RayAABBIntersectMeaning(o, d, b);
    SlabsContain(o, d, b, t);
    forall s | InBox(b, At(o, d, s)) ensures t <= s {
      SlabsContain(o, d, b, s);
    }
  }

  /**
   * A miss means no point of the forward ray is in the box, unless the
   * origin itself is: a ray that starts inside the box misses it.
   */
  lemma MissMeansNoForwardPoint(o: Vec3, d: Vec3, b: Bounds, t: real)
    requires RayDefined(o, d, b) && Ordered(b)
    requires RayAABBIntersect(o, d, b).None?
    requires t >= 0.0 && InBox(b, At(o, d, t))
    ensures InBox(b, o)
  {
    RayAABBIntersectMeaning(o, d, b);
    SlabsContain(o, d, b, t);
    SlabsContain(o, d, b, 0.0);
    assert At(o, d, 0.0) == o;
  }

  /** A ray starting strictly inside a finite box misses it, whatever its direction. */
  lemma StartInsideMisses(o: Vec3, d: Vec3, b: Bounds)
    requires RayDefined(o, d, b) && Finite(b)
    requires b.minX.v < o.x < b.maxX.v && b.minY.v < o.y < b.maxY.v && b.minZ.v < o.z < b.maxZ.v
    ensures RayAABBIntersect(o, d, b).None?
  {
    RayAABBIntersectMeaning(o, d, b);
    SlabBehind(b.minX, b.maxX, o.x, d.x);
    SlabBehind(b.minY, b.maxY, o.y, d.y);
    SlabBehind(b.minZ, b.maxZ, o.z, d.z);
  }

  /** From strictly between the planes, the smaller crossing is behind the origin. */
  lemma SlabBehind(lo: Ext, hi: Ext, o: real, d: real)
    requires DivDefined(Minus(lo, o), d) && DivDefined(Minus(hi, o), d)
    requires lo.Fin? && hi.Fin? && lo.v < o < hi.v
    ensures Lt(Slab(lo, hi, o, d).0, Fin(0.0))
  {
    if d > 0.0 {
      DivLe(lo.v - o, d, 0.0);
      DivLe(hi.v - o, d, 0.0);
    } else if d < 0.0 {
      DivLeNeg(lo.v - o, d, 0.0);
      DivLeNeg(hi.v - o, d, 0.0);
    }
  }

  /** `t` is truthy: a finite, non-zero hit (`false` and 0 are misses). */
  predicate Hit(t: Option<Ext>) {
    t.Some? && t.value.Fin? && t.value.v != 0.0
  }

  /** `t && t < minT`. */
  predicate Beats(t: Option<Ext>, minT: real) {
    Hit(t) && t.value.v < minT
  }

  /**
   * The pick `castRay` makes from the test results in visiting order:
   * the distance and index of the first hit that no earlier hit beats, or
   * `Number.MAX_VALUE` and no index when no hit is below it.
   */
  function Closest(ts: seq<Option<Ext>>): (r: (real, Option<nat>))
    ensures r.1.None? ==> r.0 == MaxValue && forall i :: 0 <= i < |ts| ==> !Beats(ts[i], MaxValue)
    ensures r.1.Some? ==> r.1.value < |ts| && Hit(ts[r.1.value]) && ts[r.1.value].value.v == r.0 && r.0 < MaxValue
    ensures forall i :: 0 <= i < |ts| && Beats(ts[i], MaxValue) ==> r.0 <= ts[i].value.v
    ensures r.1.Some? ==> forall i :: 0 <= i < r.1.value && Hit(ts[i]) ==> r.0 < ts[i].value.v
  {
    if ts == [] then (MaxValue, None)
    else
      var prev := Closest(ts[..|ts| - 1]);
      var t := ts[|ts| - 1];
      assert forall i :: 0 <= i < |ts| - 1 ==> ts[..|ts| - 1][i] == ts[i];
      if Beats(t, prev.0) then (t.value.v, Some(|ts| - 1)) else prev
  }

  /** One more result either beats the closest hit so far, and becomes it, or leaves it as it was. */
  lemma ClosestAppend(ts: seq<Option<Ext>>, t: Option<Ext>)
    ensures Closest(ts + [t]) == if Beats(t, Closest(ts).0) then (t.value.v, Some(|ts|)) else Closest(ts)
  {
    assert (ts + [t])[..|ts|] == ts;
  }
}
