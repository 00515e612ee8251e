/**
 * `js/PhysicsEngine.js`: the collision-flag scan. The world box of an object
 * comes from a map `boxes` keyed like the scene's world objects; an object
 * has a box exactly when its key is in the map. (The source reads a
 * `modelSpaceAABB` property and calls a `getWorldSpaceAABB` method that no
 * class defines; the map stands for both.)
 */
module Physics {
  import opened Wrappers
  import opened Numbers
  import opened JsValues
  import opened Utils
  import opened Models
  import opened WorldObjects

  /** `checkCollision(a, b)`: the boxes overlap on all three axes, boundaries included. */
  predicate CheckCollision(a: Bounds, b: Bounds) {
    Le(a.minX, b.maxX) && Le(b.minX, a.maxX) &&
    Le(a.minY, b.maxY) && Le(b.minY, a.maxY) &&
    Le(a.minZ, b.maxZ) && Le(b.minZ, a.maxZ)
  }

  lemma CheckCollisionSymmetric(a: Bounds, b: Bounds)
    ensures CheckCollision(a, b) == CheckCollision(b, a)
  {
  }

  /** A point inside a box, boundary included. */
  predicate InBox(b: Bounds, p: Vec3) {
    Le(b.minX, Fin(p.x)) && Le(Fin(p.x), b.maxX) &&
    Le(b.minY, Fin(p.y)) && Le(Fin(p.y), b.maxY) &&
    Le(b.minZ, Fin(p.z)) && Le(Fin(p.z), b.maxZ)
  }

  predicate Finite(b: Bounds) {
    b.minX.Fin? && b.maxX.Fin? && b.minY.Fin? && b.maxY.Fin? && b.minZ.Fin? && b.maxZ.Fin?
  }

  function MaxReal(x: real, y: real): real {
    if x < y then y else x
  }

  /** The lowest corner of the overlap of two boxes. */
  function OverlapCorner(a: Bounds, b: Bounds): Vec3
    requires Finite(a) && Finite(b)
  {
    Vec3(MaxReal(a.minX.v, b.minX.v), MaxReal(a.minY.v, b.minY.v), MaxReal(a.minZ.v, b.minZ.v))
  }

  /**
   * For finite boxes with min <= max, the test reports a collision exactly
   * when the boxes share a point; boxes that merely touch share their
   * common face and so collide.
   */
  lemma CollisionIffSharedPoint(a: Bounds, b: Bounds)
    requires Finite(a) && Finite(b) && Ordered(a) && Ordered(b)
    ensures CheckCollision(a, b) ==> InBox(a, OverlapCorner(a, b)) && InBox(b, OverlapCorner(a, b))
    ensures forall p :: InBox(a, p) && InBox(b, p) ==> CheckCollision(a, b)
  {
  }

  /** Two boxes that touch along x (one's max is the other's min) and overlap on y and z collide. */
  lemma TouchingBoxesCollide(a: Bounds, b: Bounds)
    requires Ordered(a) && Ordered(b) && a.maxX == b.minX
    requires Le(a.minY, b.maxY) && Le(b.minY, a.maxY) && Le(a.minZ, b.maxZ) && Le(b.minZ, a.maxZ)
    ensures CheckCollision(a, b)
  {
    LeTrans(a.minX, a.maxX, b.maxX);
  }

  // ---------------------------------------------------------------------------
  // The scan

  /** Different keys hold different objects. */
  ghost predicate Injective(order: seq<string>, objects: map<string, WorldObject>)
    requires Enumerates(order, objects)
  {
    forall i, j :: 0 <= i < |order| && 0 <= j < |order| && i != j ==> objects[order[i]] != objects[order[j]]
  }

  /** An object the scan compares: collision on, a model, and a box. */
  predicate Eligible(o: WorldObject, key: string, boxes: map<string, Bounds>)
    reads o
  {
    Truthy(o.hasCollision) && o.model.Some? && key in boxes
  }

  /** An object whose collision check throws: collision on but no model to read the box from. */
  predicate Faulty(o: WorldObject)
    reads o
  {
    Truthy(o.hasCollision) && o.model.None?
  }

  /**
   * The pairs the scan flags, by position in `order`: `ov[m][n]` holds when
   * objects `m` and `n` are both eligible and their boxes overlap.
   */
  ghost predicate Matrix(ov: seq<seq<bool>>) {
    forall m :: 0 <= m < |ov| ==> |ov[m]| == |ov|
  }

  ghost predicate Symmetric(ov: seq<seq<bool>>)
    requires Matrix(ov)
  {
    forall m, n :: 0 <= m < |ov| && 0 <= n < |ov| ==> ov[m][n] == ov[n][m]
  }

  /** Which objects are eligible, from whether their `hasCollision` is truthy (`hc`) and whether they have a model (`hm`). */
  function EligibleOf(hc: seq<bool>, hm: seq<bool>, order: seq<string>, boxes: map<string, Bounds>): (r: seq<bool>)
    requires |hc| == |order| && |hm| == |order|
    ensures |r| == |order|
    ensures forall m :: 0 <= m < |order| ==> r[m] == (hc[m] && hm[m] && order[m] in boxes)
  {
    seq(|order|, m requires 0 <= m < |order| => hc[m] && hm[m] && order[m] in boxes)
  }

  /** The overlap matrix of the eligible objects' boxes. */
  function OverlapOf(elig: seq<bool>, order: seq<string>, boxes: map<string, Bounds>): (ov: seq<seq<bool>>)
    requires |elig| == |order| && forall m :: 0 <= m < |order| && elig[m] ==> order[m] in boxes
    ensures |ov| == |order| && Matrix(ov)
    ensures forall m, n :: 0 <= m < |order| && 0 <= n < |order| ==>
              ov[m][n] == (elig[m] && elig[n] && CheckCollision(boxes[order[m]], boxes[order[n]]))
  {
    seq(|order|, m requires 0 <= m < |order| =>
      seq(|order|, n requires 0 <= n < |order| =>
        elig[m] && elig[n] && CheckCollision(boxes[order[m]], boxes[order[n]])))
  }

  /**
   * `ov` is the overlap matrix of the eligible objects, eligibility read from
   * `hc` and `hm` (see `EligibleOf`).
   */
  ghost predicate OverlapMatrix(ov: seq<seq<bool>>, hc: seq<bool>, hm: seq<bool>, order: seq<string>, boxes: map<string, Bounds>)
    requires |hc| == |order| && |hm| == |order|
  {
    |ov| == |order| && Matrix(ov) &&
    forall m, n {:trigger ov[m][n]} :: 0 <= m < |order| && 0 <= n < |order| ==>
      ov[m][n] == (hc[m] && hm[m] && order[m] in boxes && hc[n] && hm[n] && order[n] in boxes &&
                   CheckCollision(boxes[order[m]], boxes[order[n]]))
  }

  lemma OverlapOfMatrix(hc: seq<bool>, hm: seq<bool>, order: seq<string>, boxes: map<string, Bounds>)
    requires |hc| == |order| && |hm| == |order|
    ensures OverlapMatrix(OverlapOf(EligibleOf(hc, hm, order, boxes), order, boxes), hc, hm, order, boxes)
  {
  }

  /** An object that is not eligible overlaps nothing. */
  lemma OverlapRowEmpty(ov: seq<seq<bool>>, hc: seq<bool>, hm: seq<bool>, order: seq<string>, boxes: map<string, Bounds>, a: nat)
    requires |hc| == |order| && |hm| == |order| && a < |order|
    requires OverlapMatrix(ov, hc, hm, order, boxes) && !(hc[a] && hm[a] && order[a] in boxes)
    ensures forall n :: 0 <= n < |ov| ==> !ov[a][n]
  {
  }

  /** Overlap is symmetric, so the matrix is. */
  lemma OverlapSymmetric(elig: seq<bool>, order: seq<string>, boxes: map<string, Bounds>)
    requires |elig| == |order| && forall m :: 0 <= m < |order| && elig[m] ==> order[m] in boxes
    ensures Symmetric(OverlapOf(elig, order, boxes))
  {
    var ov := OverlapOf(elig, order, boxes);
    forall m, n | 0 <= m < |order| && 0 <= n < |order| ensures ov[m][n] == ov[n][m] {
      if elig[m] && elig[n] { CheckCollisionSymmetric(boxes[order[m]], boxes[order[n]]); }
    }
  }

  /**
   * Object `m` is flagged once the pairs (i, j) with i before `a`, and the
   * pairs (a, j) with j before `b`, have been compared.
   */
  ghost predicate Marked(ov: seq<seq<bool>>, a: nat, b: nat, m: nat)
    requires Matrix(ov) && m < |ov|
  {
    exists n :: 0 <= n < |ov| && n != m && ov[m][n] &&
                (m < a || n < a || (m == a && n < b) || (n == a && m < b))
  }

  /** Object `m` overlaps some other eligible object. */
  ghost predicate Collides(ov: seq<seq<bool>>, m: nat)
    requires Matrix(ov) && m < |ov|
  {
    exists n :: 0 <= n < |ov| && n != m && ov[m][n]
  }

  /** Comparing (a, b) marks both when they overlap, and nothing else. */
  lemma MarkedStep(ov: seq<seq<bool>>, a: nat, b: nat, m: nat)
    requires Matrix(ov) && Symmetric(ov) && m < |ov| && a < |ov| && b < |ov|
    ensures Marked(ov, a, b + 1, m) == (Marked(ov, a, b, m) || (a != b && (m == a || m == b) && ov[a][b]))
  {
    if a != b && (m == a || m == b) && ov[a][b] {
      var n := if m == a then b else a;
      assert n != m && ov[m][n];
    }
  }

  lemma MarkedRow(ov: seq<seq<bool>>, a: nat, m: nat)
    requires Matrix(ov) && m < |ov| && a < |ov|
    ensures Marked(ov, a, |ov|, m) == Marked(ov, a + 1, 0, m)
  {
  }

  /** One comparison of the inner loop: `a` and `b` are flagged when they overlap. */
  ghost function Step(f: seq<bool>, ov: seq<seq<bool>>, a: nat, b: nat): (r: seq<bool>)
    requires Matrix(ov) && |f| == |ov| && a < |ov| && b < |ov|
    ensures |r| == |ov|
    ensures forall m :: 0 <= m < |ov| ==> r[m] == (f[m] || (a != b && (m == a || m == b) && ov[a][b]))
  {
    if a != b && ov[a][b] then f[a := true][b := true] else f
  }

  /** The flags after the inner loop for `a` has compared `a` with the objects before `b`, starting from `f`. */
  ghost function Row(f: seq<bool>, ov: seq<seq<bool>>, a: nat, b: nat): (r: seq<bool>)
    requires Matrix(ov) && |f| == |ov| && a < |ov| && b <= |ov|
    ensures |r| == |ov|
  {
    if b == 0 then f else Step(Row(f, ov, a, b - 1), ov, a, b - 1)
  }

  /** No object flagged. */
  function AllFalse(n: nat): (r: seq<bool>)
    ensures |r| == n && forall m :: 0 <= m < n ==> !r[m]
  {
    if n == 0 then [] else AllFalse(n - 1) + [false]
  }

  /** The flags after the outer loop has finished the rows before `a`: the loops of `updateScene()` as a function. */
  ghost function Scan(ov: seq<seq<bool>>, a: nat): (r: seq<bool>)
    requires Matrix(ov) && a <= |ov|
    ensures |r| == |ov|
  {
    if a == 0 then AllFalse(|ov|) else Row(Scan(ov, a - 1), ov, a - 1, |ov|)
  }

  /** The row of an object that overlaps nothing changes nothing: the scan may skip it. */
  lemma {:induction false} RowSkips(f: seq<bool>, ov: seq<seq<bool>>, a: nat, b: nat)
    requires Matrix(ov) && |f| == |ov| && a < |ov| && b <= |ov| && forall n :: 0 <= n < |ov| ==> !ov[a][n]
    ensures Row(f, ov, a, b) == f
  {
    if b > 0 { RowSkips(f, ov, a, b - 1); }
  }

  /** The scan keeps exactly the marks `Marked` describes, row by row. */
  lemma {:induction false} RowMarked(ov: seq<seq<bool>>, a: nat, b: nat)
    requires Matrix(ov) && Symmetric(ov) && a < |ov| && b <= |ov|
    ensures forall m :: 0 <= m < |ov| ==> Row(Scan(ov, a), ov, a, b)[m] == Marked(ov, a, b, m)
    decreases a, b + 1
  {
    if b == 0 {
      ScanMarked(ov, a);
    } else {
      RowMarked(ov, a, b - 1);
      forall m | 0 <= m < |ov| ensures Marked(ov, a, b, m) == (Marked(ov, a, b - 1, m) || (a != b - 1 && (m == a || m == b - 1) && ov[a][b - 1])) {
        MarkedStep(ov, a, b - 1, m);
      }
    }
  }

  lemma {:induction false} ScanMarked(ov: seq<seq<bool>>, a: nat)
    requires Matrix(ov) && Symmetric(ov) && a <= |ov|
    ensures forall m :: 0 <= m < |ov| ==> Scan(ov, a)[m] == Marked(ov, a, 0, m)
    decreases a, 0
  {
    if a > 0 {
      RowMarked(ov, a - 1, |ov|);
      forall m | 0 <= m < |ov| ensures Marked(ov, a - 1, |ov|, m) == Marked(ov, a, 0, m) {
        MarkedRow(ov, a - 1, m);
      }
    }
  }

  /** After every row, an object is flagged exactly when it overlaps another one. */
  lemma ScanComplete(ov: seq<seq<bool>>)
    requires Matrix(ov) && Symmetric(ov)
    ensures forall m :: 0 <= m < |ov| ==> Scan(ov, |ov|)[m] == Collides(ov, m)
  {
    ScanMarked(ov, |ov|);
  }

  /** At any point of the scan, an object that is flagged is one the complete scan flags. */
  lemma PartialScanSound(elig: seq<bool>, order: seq<string>, boxes: map<string, Bounds>, a: nat, b: nat)
    requires |elig| == |order| && forall k :: 0 <= k < |order| && elig[k] ==> order[k] in boxes
    requires a < |order| && b <= |order|
    ensures var ov := OverlapOf(elig, order, boxes);
            forall m :: 0 <= m < |order| && Row(Scan(ov, a), ov, a, b)[m] ==> Scan(ov, |order|)[m]
  {
    var ov := OverlapOf(elig, order, boxes);
    OverlapSymmetric(elig, order, boxes);
    RowMarked(ov, a, b);
    ScanComplete(ov);
  }

  /** After the whole scan, exactly the eligible objects that overlap another eligible object are flagged. */
  lemma ScanMeaning(elig: seq<bool>, order: seq<string>, boxes: map<string, Bounds>)
    requires |elig| == |order| && forall k :: 0 <= k < |order| && elig[k] ==> order[k] in boxes
    ensures Matrix(OverlapOf(elig, order, boxes))
    ensures forall m :: 0 <= m < |order| ==>
              (Scan(OverlapOf(elig, order, boxes), |order|)[m] <==>
                 elig[m] && exists n :: 0 <= n < |order| && n != m && elig[n] && CheckCollision(boxes[order[m]], boxes[order[n]]))
  {
    OverlapSymmetric(elig, order, boxes);
    ScanComplete(OverlapOf(elig, order, boxes));
    forall m | 0 <= m < |order|
      ensures Collides(OverlapOf(elig, order, boxes), m) <==>
                elig[m] && exists n :: 0 <= n < |order| && n != m && elig[n] && CheckCollision(boxes[order[m]], boxes[order[n]])
    {
      CollidesMeaning(elig, order, boxes, m);
    }
  }

  /** After the scan, `m` is flagged exactly when it is eligible and overlaps another eligible object. */
  lemma CollidesMeaning(elig: seq<bool>, order: seq<string>, boxes: map<string, Bounds>, m: nat)
    requires |elig| == |order| && forall k :: 0 <= k < |order| && elig[k] ==> order[k] in boxes
    requires m < |order|
    ensures Collides(OverlapOf(elig, order, boxes), m) <==>
              elig[m] && exists n :: 0 <= n < |order| && n != m && elig[n] && CheckCollision(boxes[order[m]], boxes[order[n]])
  {
    var ov := OverlapOf(elig, order, boxes);
    if Collides(ov, m) {
      var n :| 0 <= n < |ov| && n != m && ov[m][n];
      assert elig[n];
    }
  }

  // The methods below scan `os`, the world objects in key order (the
  // objects the `for ... in` loops of `updateScene()` visit), whose keys are
  // `keys`; `hc` and `hm` record, per position, whether the object's
  // `hasCollision` is truthy and whether it has a model.

  /** No object appears twice. */
  ghost predicate Distinct(os: seq<WorldObject>) {
    forall i, j :: 0 <= i < |os| && 0 <= j < |os| && i != j ==> os[i] != os[j]
  }

  /** `hc` and `hm` describe the objects; the scan writes neither field. */
  ghost predicate Snap(os: seq<WorldObject>, hc: seq<bool>, hm: seq<bool>)
    requires |hc| == |os| && |hm| == |os|
    reads os`hasCollision, os`model
  {
    forall m :: 0 <= m < |os| ==> Truthy(os[m].hasCollision) == hc[m] && os[m].model.Some? == hm[m]
  }

  /** The collision flags of the objects are `f`, in order. */
  ghost predicate FlagsAre(os: seq<WorldObject>, f: seq<bool>)
    reads os`isColliding
  {
    |f| == |os| && forall m :: 0 <= m < |os| ==> os[m].isColliding == f[m]
  }

  /** None of the first `n` objects has collision on and no model. */
  ghost predicate NoneFaulty(hc: seq<bool>, hm: seq<bool>, n: nat)
    requires n <= |hc| && n <= |hm|
  {
    forall m :: 0 <= m < n ==> !(hc[m] && !hm[m])
  }

  /** None of the first `n` objects is eligible. */
  ghost predicate NoneEligible(hc: seq<bool>, hm: seq<bool>, keys: seq<string>, boxes: map<string, Bounds>, n: nat)
    requires n <= |hc| && n <= |hm| && n <= |keys|
  {
    forall m :: 0 <= m < n ==> !(hc[m] && hm[m] && keys[m] in boxes)
  }

  /**
   * Where the outer step for object `a` throws: at `a` itself (`at` is 0)
   * when it has collision on and no model, or, when `a` is eligible, at
   * the first object `at` with collision on and no model.
   */
  ghost predicate ThrowPoint(hc: seq<bool>, hm: seq<bool>, keys: seq<string>, boxes: map<string, Bounds>, a: nat, at: nat)
    requires |hc| == |keys| && |hm| == |keys| && a < |keys|
  {
    (hc[a] && !hm[a] && at == 0) ||
    (hc[a] && hm[a] && keys[a] in boxes && at < |keys| && hc[at] && !hm[at] && NoneFaulty(hc, hm, at))
  }

  /**
   * What the scan methods share: distinct objects, one key and one `hc`/`hm`
   * entry per object, `hc` and `hm` describing the objects, and `ov` the
   * overlap matrix of the eligible ones.
   */
  ghost predicate Scanning(os: seq<WorldObject>, keys: seq<string>, boxes: map<string, Bounds>,
                           hc: seq<bool>, hm: seq<bool>, ov: seq<seq<bool>>)
    reads os`hasCollision, os`model
  {
    Distinct(os) && |keys| == |os| && |hc| == |os| && |hm| == |os| &&
    Snap(os, hc, hm) && OverlapMatrix(ov, hc, hm, keys, boxes)
  }

  /** The first loop of `updateScene()`: every collision flag becomes false. */
  method ClearFlags(os: seq<WorldObject>, ghost hc: seq<bool>, ghost hm: seq<bool>)
    requires |hc| == |os| && |hm| == |os| && Snap(os, hc, hm)
    modifies os`isColliding
    ensures FlagsAre(os, AllFalse(|os|))
    ensures Snap(os, hc, hm)
  {
    var i := 0;
    while i < |os|
      invariant 0 <= i <= |os|
      invariant forall m :: 0 <= m < i ==> !os[m].isColliding
    {
      os[i].isColliding := false;
      i := i + 1;
    }
  }

  /**
   * The body of the inner loop of `updateScene()`, for outer object `a`
   * (eligible) and inner object `b`: skip `a` itself and objects with
   * collision off; throw (`thrown`) on an object without a model; flag
   * both objects when the boxes overlap, which is one `Step` of the scan.
   */
  method CompareStep(os: seq<WorldObject>, keys: seq<string>, boxes: map<string, Bounds>,
                     ghost hc: seq<bool>, ghost hm: seq<bool>, ghost ov: seq<seq<bool>>, a: nat, b: nat,
                     ghost f: seq<bool>)
    returns (thrown: bool)
    requires Scanning(os, keys, boxes, hc, hm, ov)
    requires a < |os| && b < |os| && hc[a] && hm[a] && keys[a] in boxes
    requires FlagsAre(os, f)
    modifies os`isColliding
    ensures thrown <==> b != a && hc[b] && !hm[b]
    ensures thrown ==> FlagsAre(os, f)
    ensures !thrown ==> FlagsAre(os, Step(f, ov, a, b))
  {
    thrown := false;
    var o2 := os[b];
    if b != a && Truthy(o2.hasCollision) {
      if o2.model.None? {
        return true;
      }
      if keys[b] in boxes && CheckCollision(boxes[keys[a]], boxes[keys[b]]) {
        os[a].isColliding := true;
        o2.isColliding := true;
      }
    }
  }

  /**
   * The inner loop of `updateScene()`: object `a`, which is eligible, is
   * compared with every other object; both are flagged on overlap. The
   * pass throws (`ok` false) at the first other object with collision on
   * and no model, `at`, leaving the flags of the comparisons before it.
   */
  method CompareRow(os: seq<WorldObject>, keys: seq<string>, boxes: map<string, Bounds>,
                    ghost hc: seq<bool>, ghost hm: seq<bool>, ghost ov: seq<seq<bool>>, a: nat, ghost f: seq<bool>)
    returns (ok: bool, ghost at: nat)
    requires Scanning(os, keys, boxes, hc, hm, ov)
    requires a < |os| && hc[a] && hm[a] && keys[a] in boxes
    requires FlagsAre(os, f)
    modifies os`isColliding
    ensures ok <==> forall m :: 0 <= m < |os| ==> !(hc[m] && !hm[m])
    ensures ok ==> FlagsAre(os, Row(f, ov, a, |os|))
    ensures !ok ==> at < |os| && hc[at] && !hm[at] && NoneFaulty(hc, hm, at) && FlagsAre(os, Row(f, ov, a, at))
  {
    var b := 0;
    while b < |os|
      invariant 0 <= b <= |os|
      invariant FlagsAre(os, Row(f, ov, a, b))
      invariant NoneFaulty(hc, hm, b)
    {
      var thrown := CompareStep(os, keys, boxes, hc, hm, ov, a, b, Row(f, ov, a, b));
      if thrown {
        return false, b;
      }
      b := b + 1;
    }
    ok, at := true, 0;
  }

  /**
   * The body of the outer loop of `updateScene()` for object `a`: skip it
   * when collision is off or it has no box, throw when it has no model,
   * otherwise compare it with every other object. On a throw the flags are
   * those of the rows before `a` and of row `a` up to position `at`: 0
   * when `a` itself throws, else the first object with collision on and
   * no model.
   */
  method ScanRow(os: seq<WorldObject>, keys: seq<string>, boxes: map<string, Bounds>,
                 ghost hc: seq<bool>, ghost hm: seq<bool>, ghost ov: seq<seq<bool>>, a: nat)
    returns (ok: bool, ghost at: nat)
    requires Scanning(os, keys, boxes, hc, hm, ov) && a < |os|
    requires FlagsAre(os, Scan(ov, a))
    modifies os`isColliding
    ensures !ok ==> exists m :: 0 <= m < |os| && hc[m] && !hm[m]
    ensures ok ==> !(hc[a] && !hm[a])
    ensures ok ==> FlagsAre(os, Scan(ov, a + 1))
    ensures ok && hc[a] && hm[a] && keys[a] in boxes ==> NoneFaulty(hc, hm, |os|)
    ensures !ok ==> at <= |os| && FlagsAre(os, Row(Scan(ov, a), ov, a, at)) && ThrowPoint(hc, hm, keys, boxes, a, at)
  {
    var o1 := os[a];
    if !Truthy(o1.hasCollision) || (o1.model.Some? && keys[a] !in boxes) {
      assert !(hc[a] && hm[a] && keys[a] in boxes);
      OverlapRowEmpty(ov, hc, hm, keys, boxes, a);
      RowSkips(Scan(ov, a), ov, a, |os|);
      return true, 0;
    }
    if o1.model.None? {
      assert hc[a] && !hm[a];
      return false, 0;
    }
    ok, at := CompareRow(os, keys, boxes, hc, hm, ov, a, Scan(ov, a));
  }

  /**
   * The outer loop of `updateScene()`, after the flags are cleared. On a
   * throw in row `row` the flags are those of the rows before it and of
   * row `row` up to position `at` (see `ScanRow`).
   */
  method ScanRows(os: seq<WorldObject>, keys: seq<string>, boxes: map<string, Bounds>,
                  ghost hc: seq<bool>, ghost hm: seq<bool>, ghost ov: seq<seq<bool>>)
    returns (ok: bool, ghost row: nat, ghost at: nat)
    requires Scanning(os, keys, boxes, hc, hm, ov)
    requires FlagsAre(os, AllFalse(|os|))
    modifies os`isColliding
    ensures ok <==> forall m :: 0 <= m < |os| ==> !(hc[m] && !hm[m])
    ensures ok ==> FlagsAre(os, Scan(ov, |os|))
    ensures !ok ==> row < |os| && at <= |os| && FlagsAre(os, Row(Scan(ov, row), ov, row, at))
    ensures !ok ==> NoneFaulty(hc, hm, row) && NoneEligible(hc, hm, keys, boxes, row) &&
                    ThrowPoint(hc, hm, keys, boxes, row, at)
  {
    var a := 0;
    while a < |os|
      invariant 0 <= a <= |os|
      invariant FlagsAre(os, Scan(ov, a))
      invariant NoneFaulty(hc, hm, a)
      invariant NoneEligible(hc, hm, keys, boxes, a) || NoneFaulty(hc, hm, |os|)
    {
      ok, at := ScanRow(os, keys, boxes, hc, hm, ov, a);
      if !ok {
        row := a;
        return;
      }
      a := a + 1;
    }
    ok, row, at := true, 0, 0;
  }

  /**
   * Object `m` is eligible and its box overlaps that of another eligible
   * object: what its flag should say after `updateScene()`.
   */
  ghost predicate CollidesWithOther(objects: map<string, WorldObject>, order: seq<string>, boxes: map<string, Bounds>, m: nat)
    requires Enumerates(order, objects) && m < |order|
    reads objects.Values
  {
    Eligible(objects[order[m]], order[m], boxes) &&
    exists n :: 0 <= n < |order| && n != m && Eligible(objects[order[n]], order[n], boxes) &&
                CheckCollision(boxes[order[m]], boxes[order[n]])
  }

  /** The flags the complete scan computes are the objects' `CollidesWithOther`. */
  lemma ScanMeansCollides(objects: map<string, WorldObject>, order: seq<string>, boxes: map<string, Bounds>,
                          hc: seq<bool>, hm: seq<bool>)
    requires Enumerates(order, objects) && |hc| == |order| && |hm| == |order|
    requires forall m :: 0 <= m < |order| ==>
               Truthy(objects[order[m]].hasCollision) == hc[m] && objects[order[m]].model.Some? == hm[m]
    ensures forall m :: 0 <= m < |order| ==>
              Scan(OverlapOf(EligibleOf(hc, hm, order, boxes), order, boxes), |order|)[m] ==
                CollidesWithOther(objects, order, boxes, m)
  {
    var elig := EligibleOf(hc, hm, order, boxes);
    assert forall m :: 0 <= m < |order| ==> elig[m] == Eligible(objects[order[m]], order[m], boxes);
    ScanMeaning(elig, order, boxes);
  }

  /**
   * `updateScene()`: clears every collision flag, then compares every
   * eligible object with every other one and flags both on overlap. An
   * object with collision on but no model makes the scan throw (`ok` is
   * false), and every flag it has set by then belongs to an object that
   * does collide with another one. Otherwise each flag ends up saying
   * whether its object collides with another one.
   */
  method UpdateScene(objects: map<string, WorldObject>, order: seq<string>, boxes: map<string, Bounds>)
    returns (ok: bool)
    requires Enumerates(order, objects) && Injective(order, objects)
    modifies objects.Values`isColliding
    ensures ok <==> forall m :: 0 <= m < |order| ==> !old(Faulty(objects[order[m]]))
    ensures ok ==> forall m :: 0 <= m < |order| ==>
              objects[order[m]].isColliding == old(CollidesWithOther(objects, order, boxes, m))
    ensures !ok ==> forall m :: 0 <= m < |order| && objects[order[m]].isColliding ==>
              old(CollidesWithOther(objects, order, boxes, m))
  {
    var os := Values(objects, order);
    ValuesComplete(objects, order);
    ghost var hc := seq(|os|, m requires 0 <= m < |os| reads os => Truthy(os[m].hasCollision));
    ghost var hm := seq(|os|, m requires 0 <= m < |os| reads os => os[m].model.Some?);
    ghost var ov := OverlapOf(EligibleOf(hc, hm, order, boxes), order, boxes);
    OverlapOfMatrix(hc, hm, order, boxes);
    assert Scanning(os, order, boxes, hc, hm, ov);
    assert forall m :: 0 <= m < |order| ==> (hc[m] && !hm[m]) == Faulty(objects[order[m]]);
    ScanMeansCollides(objects, order, boxes, hc, hm);
    ClearFlags(os, hc, hm);
    ghost var row, at;
    ok, row, at := ScanRows(os, order, boxes, hc, hm, ov);
    if !ok {
      PartialScanSound(EligibleOf(hc, hm, order, boxes), order, boxes, row, at);
    }
  }
}
