/**
 * `js/Model.js`: a model joins a mesh and a material with render and
 * animation settings, computes its model-space bounding box and serialises
 * itself.
 */
module Models {
  import opened Wrappers
  import opened Numbers
  import opened JsValues
  import opened Utils
  import opened SceneFile
  import opened Meshes
  import opened Materials

  /** The settings hold whatever JSON value a scene file gave them. */
  datatype Model = Model(
    id: string,
    mesh: Option<Mesh>,
    material: Option<Material>,
    render: Value,
    castShadow: Value,
    recieveShadow: Value,
    recieveLighting: Value,
    animateRot: Value,
    rotAxis: Value,
    rotSpeedFactor: Value,
    animateTrans: Value)
  {
    /**
     * `getModelAABB()`: no bounds (`undefined`) without a mesh; otherwise a
     * stride-3 pass over the vertex positions keeping a running minimum and
     * maximum per axis, where a coordinate that lowers the minimum is not
     * also compared with the maximum (`else if`).
     */
    method GetModelAABB() returns (r: Option<Bounds>)
      ensures r.None? <==> mesh.None?
      ensures mesh.Some? ==> r == Some(ModelBounds(mesh.value.vertPositions))
    {
      if mesh.None? {
        return None;
      }
      var pos := mesh.value.vertPositions;
      var minX, maxX, minY, maxY, minZ, maxZ := PosInf, NegInf, PosInf, NegInf, PosInf, NegInf;
      var i := 0;
      ghost var k := 0;
      while i < |pos|
        invariant i == 3 * k && k <= Triples(|pos|)
        invariant (minX, maxX) == Scanned(pos, 0, k)
        invariant (minY, maxY) == Scanned(pos, 1, k)
        invariant (minZ, maxZ) == Scanned(pos, 2, k)
        decreases |pos| - i
      {
        TriplesBound(|pos|, k);
        var x, y, z := At(pos, i), At(pos, i + 1), At(pos, i + 2);
        ColumnStep(pos, 0, k);
        ColumnStep(pos, 1, k);
        ColumnStep(pos, 2, k);
        ghost var before := (minX, maxX, minY, maxY, minZ, maxZ);
        if ScalarLt(x, minX) {
          minX := Fin(x.v);
        } else if ScalarGt(x, maxX) {
          maxX := Fin(x.v);
        }
        assert (minX, maxX) == Track((before.0, before.1), x);
        if ScalarLt(y, minY) {
          minY := Fin(y.v);
        } else if ScalarGt(y, maxY) {
          maxY := Fin(y.v);
        }
        assert (minY, maxY) == Track((before.2, before.3), y);
        if ScalarLt(z, minZ) {
          minZ := Fin(z.v);
        } else if ScalarGt(z, maxZ) {
          maxZ := Fin(z.v);
        }
        assert (minZ, maxZ) == Track((before.4, before.5), z);
        i, k := i + 3, k + 1;
      }
      TriplesBound(|pos|, k);
      ScannedAll(pos, 0);
      ScannedAll(pos, 1);
      ScannedAll(pos, 2);
      r := Some(Bounds(minX, maxX, minY, maxY, minZ, maxZ));
    }
  }

  /** `new Model(gl, id, mesh, material)`: every render flag on, no animation, spinning about +y at rate 1. */
  function NewModel(id: string, mesh: Option<Mesh>, material: Option<Material>): (m: Model)
    ensures m.id == id && m.mesh == mesh && m.material == material
    ensures m.render == JBool(true) && m.castShadow == JBool(true)
    ensures m.recieveShadow == JBool(true) && m.recieveLighting == JBool(true)
    ensures m.animateRot == JBool(false) && m.animateTrans == JBool(false)
    ensures m.rotAxis == JArr([JNum(0.0), JNum(1.0), JNum(0.0)]) && m.rotSpeedFactor == JNum(1.0)
  {
    Model(id, mesh, material, JBool(true), JBool(true), JBool(true), JBool(true),
          JBool(false), JArr([JNum(0.0), JNum(1.0), JNum(0.0)]), JNum(1.0), JBool(false))
  }

  /**
   * `toJSON()`: the id and the eight settings always; `material` and `mesh`
   * only when set, holding the id of the referenced asset.
   */
  function ToJSON(m: Model): (e: ModelEntry)
    ensures e.id == m.id
    ensures e.render == Some(m.render) && e.castShadow == Some(m.castShadow)
    ensures e.recieveShadow == Some(m.recieveShadow) && e.recieveLighting == Some(m.recieveLighting)
    ensures e.animateRot == Some(m.animateRot) && e.rotAxis == Some(m.rotAxis)
    ensures e.rotSpeedFactor == Some(m.rotSpeedFactor) && e.animateTrans == Some(m.animateTrans)
    ensures e.mesh.Some? <==> m.mesh.Some?
    ensures e.material.Some? <==> m.material.Some?
    ensures m.mesh.Some? ==> e.mesh.value == m.mesh.value.id
    ensures m.material.Some? ==> e.material.value == m.material.value.id
  {
    ModelEntry(m.id,
               if m.mesh.Some? then Some(m.mesh.value.id) else None,
               if m.material.Some? then Some(m.material.value.id) else None,
               Some(m.render), Some(m.castShadow), Some(m.recieveShadow), Some(m.recieveLighting),
               Some(m.animateRot), Some(m.rotAxis), Some(m.rotSpeedFactor), Some(m.animateTrans))
  }

  // ---------------------------------------------------------------------------
  // The bounding-box specification

  /** `pos[i]`, which reads `undefined` past the end of the array. */
  function At(pos: seq<Scalar>, i: nat): Scalar {
    if i < |pos| then pos[i] else NaN
  }

  /** The number of passes of the stride-3 loop over `len` numbers. */
  function Triples(len: nat): nat {
    (len + 2) / 3
  }

  lemma TriplesBound(len: nat, k: nat)
    ensures 3 * k < len <==> k < Triples(len)
  {
  }

  /** Coordinate `c` of every vertex the loop visits. */
  function Column(pos: seq<Scalar>, c: nat): (xs: seq<Scalar>)
    ensures |xs| == Triples(|pos|)
  {
    seq(Triples(|pos|), k requires 0 <= k < Triples(|pos|) => At(pos, 3 * k + c))
  }

  /** The running pair of axis `c` after the first `k` passes of the loop. */
  function Scanned(pos: seq<Scalar>, c: nat, k: nat): (Ext, Ext)
    requires k <= Triples(|pos|)
  {
    MinMax(Column(pos, c)[..k])
  }

  /** One more pass of the loop extends each axis' running pair by the next coordinate. */
  lemma ColumnStep(pos: seq<Scalar>, c: nat, k: nat)
    requires k < Triples(|pos|)
    ensures Scanned(pos, c, k + 1) == Track(Scanned(pos, c, k), At(pos, 3 * k + c))
  {
    assert Column(pos, c)[..k + 1][..k] == Column(pos, c)[..k];
  }

  lemma ScannedAll(pos: seq<Scalar>, c: nat)
    ensures Scanned(pos, c, Triples(|pos|)) == MinMax(Column(pos, c))
  {
    assert Column(pos, c)[..Triples(|pos|)] == Column(pos, c);
  }

  /** The running (minimum, maximum) pair of one axis, with the `else if` of the source. */
  function MinMax(xs: seq<Scalar>): (Ext, Ext) {
    if |xs| == 0 then (PosInf, NegInf)
    else Track(MinMax(xs[..|xs| - 1]), xs[|xs| - 1])
  }

  /** One comparison step: a new minimum, else a new maximum, else nothing. */
  function Track(acc: (Ext, Ext), x: Scalar): (Ext, Ext) {
    if ScalarLt(x, acc.0) then (Fin(x.v), acc.1)
    else if ScalarGt(x, acc.1) then (acc.0, Fin(x.v))
    else acc
  }

  /** The bounds `getModelAABB` returns for a mesh with the given vertex positions. */
  function ModelBounds(pos: seq<Scalar>): Bounds {
    var (x, X) := MinMax(Column(pos, 0));
    var (y, Y) := MinMax(Column(pos, 1));
    var (z, Z) := MinMax(Column(pos, 2));
    Bounds(x, X, y, Y, z, Z)
  }

  /**
   * The minimum is exact: it is at most every coordinate, it is one of them,
   * and it stays +Infinity only when no coordinate is a number.
   */
  lemma {:induction false} MinMaxLow(xs: seq<Scalar>)
    ensures var lo := MinMax(xs).0;
            lo != NegInf &&
            (forall k :: 0 <= k < |xs| && xs[k].Num? ==> Le(lo, Fin(xs[k].v))) &&
            (lo == PosInf <==> forall k :: 0 <= k < |xs| ==> xs[k] == NaN) &&
            (lo.Fin? ==> exists k :: 0 <= k < |xs| && xs[k] == Num(lo.v))
  {
    if |xs| > 0 {
      var init := xs[..|xs| - 1];
      MinMaxLow(init);
      var lo0 := MinMax(init).0;
      var lo := MinMax(xs).0;
      var x := xs[|xs| - 1];
      assert forall k :: 0 <= k < |init| ==> init[k] == xs[k];
      if ScalarLt(x, lo0) {
        assert lo == Fin(x.v);
        forall k | 0 <= k < |xs| && xs[k].Num?
          ensures Le(lo, Fin(xs[k].v))
        {
          if k < |init| { LtLeTrans(Fin(x.v), lo0, Fin(xs[k].v)); }
        }
      } else {
        assert lo == lo0;
        if lo0 == PosInf {
          assert x == NaN;
        } else {
          var k0 :| 0 <= k0 < |init| && init[k0] == Num(lo0.v);
          assert xs[k0] == Num(lo.v);
        }
      }
    }
  }

  /**
   * The maximum is at least every coordinate that did not lower the minimum
   * when it was read, and it is either -Infinity or one of the coordinates.
   */
  lemma {:induction false} MinMaxHigh(xs: seq<Scalar>)
    ensures var hi := MinMax(xs).1;
            hi != PosInf &&
            (forall k :: 0 <= k < |xs| && xs[k].Num? && !ScalarLt(xs[k], MinMax(xs[..k]).0) ==> Le(Fin(xs[k].v), hi)) &&
            (hi.Fin? ==> exists k :: 0 <= k < |xs| && xs[k] == Num(hi.v))
  {
    if |xs| > 0 {
      var init := xs[..|xs| - 1];
      MinMaxHigh(init);
      var hi0 := MinMax(init).1;
      var hi := MinMax(xs).1;
      var x := xs[|xs| - 1];
      assert forall k :: 0 <= k < |init| ==> init[k] == xs[k] && init[..k] == xs[..k];
      assert xs[..|xs| - 1] == init;
      LeTotal(hi0, hi);
      assert Le(hi0, hi);
      forall k | 0 <= k < |xs| && xs[k].Num? && !ScalarLt(xs[k], MinMax(xs[..k]).0)
        ensures Le(Fin(xs[k].v), hi)
      {
        if k < |init| {
          LeTrans(Fin(xs[k].v), hi0, hi);
        }
      }
      if hi.Fin? && hi != hi0 {
        assert xs[|xs| - 1] == Num(hi.v);
      } else if hi.Fin? {
        var k0 :| 0 <= k0 < |init| && init[k0] == Num(hi0.v);
        assert xs[k0] == Num(hi.v);
      }
    }
  }

  /** A mesh without vertices has the empty inverted box: +Infinity minima, -Infinity maxima. */
  lemma EmptyMeshBounds()
    ensures ModelBounds([]) == Bounds(PosInf, NegInf, PosInf, NegInf, PosInf, NegInf)
  {
    assert Column([], 0) == [] && Column([], 1) == [] && Column([], 2) == [];
  }

  /**
   * A one-vertex mesh: the vertex lowers every minimum and so never reaches
   * the maxima, which stay -Infinity; the box has max < min on every axis.
   */
  lemma OneVertexBounds(a: real, b: real, c: real)
    ensures ModelBounds([Num(a), Num(b), Num(c)]) == Bounds(Fin(a), NegInf, Fin(b), NegInf, Fin(c), NegInf)
    ensures Lt(ModelBounds([Num(a), Num(b), Num(c)]).maxX, ModelBounds([Num(a), Num(b), Num(c)]).minX)
  {
    var pos := [Num(a), Num(b), Num(c)];
    assert Column(pos, 0) == [Num(a)] && Column(pos, 1) == [Num(b)] && Column(pos, 2) == [Num(c)];
    forall v: real ensures MinMax([Num(v)]) == (Fin(v), NegInf) {
      assert [Num(v)][..0] == [];
    }
  }
}
