/**
 * The geometry helpers of `js/utils.js`: the built-in box mesh, the wireframe
 * line list of a bounding box, the power-of-two test used for textures and
 * element-wise array comparison.
 */
module Utils {
  import opened Numbers
  import opened ObjParser

  /** A bounds record `{minX, maxX, minY, maxY, minZ, maxZ}`. */
  datatype Bounds = Bounds(minX: Ext, maxX: Ext, minY: Ext, maxY: Ext, minZ: Ext, maxZ: Ext)

  // ---------------------------------------------------------------------------
  // createBoxMeshData

  function Nums(xs: seq<real>): (r: seq<Scalar>)
    ensures |r| == |xs| && forall i :: 0 <= i < |xs| ==> r[i] == Num(xs[i])
  {
    seq(|xs|, i requires 0 <= i < |xs| => Num(xs[i]))
  }

  /** Component `c` (0, 1 or 2) of a 3-component vector. */
  function Component(t: (real, real, real), c: nat): real {
    if c == 0 then t.0 else if c == 1 then t.1 else t.2
  }

  /** Flattens a list of 3-component vectors into `x, y, z, x, y, z, ...`. */
  function FlattenTriples(vs: seq<(real, real, real)>): (r: seq<Scalar>)
    ensures |r| == 3 * |vs|
  {
    seq(3 * |vs|, i requires 0 <= i < 3 * |vs| => Num(Component(vs[i / 3], i % 3)))
  }

  lemma FlattenTriplesAt(vs: seq<(real, real, real)>, k: nat)
    requires k < |vs|
    ensures FlattenTriples(vs)[3 * k] == Num(vs[k].0)
    ensures FlattenTriples(vs)[3 * k + 1] == Num(vs[k].1)
    ensures FlattenTriples(vs)[3 * k + 2] == Num(vs[k].2)
  {
    assert (3 * k) / 3 == k && (3 * k + 1) / 3 == k && (3 * k + 2) / 3 == k;
    assert (3 * k) % 3 == 0 && (3 * k + 1) % 3 == 1 && (3 * k + 2) % 3 == 2;
  }

  /** The corners of the box the default mesh is built from, one per vertex. */
  function BoxPositions(width: real, height: real, depth: real): (ps: seq<(real, real, real)>)
    ensures |ps| == 24
    ensures forall k :: 0 <= k < 24 ==>
              (ps[k].0 == width / 2.0 || ps[k].0 == -width / 2.0) &&
              (ps[k].1 == height / 2.0 || ps[k].1 == -height / 2.0) &&
              (ps[k].2 == depth / 2.0 || ps[k].2 == -depth / 2.0)
  {
    var w, h, d := width / 2.0, height / 2.0, depth / 2.0;
    [(-w, h, -d), (w, h, d),   (w, h, -d),
     (w, h, d),   (-w, -h, d), (w, -h, d),
     (-w, h, d),  (-w, -h, -d), (-w, -h, d),
     (w, -h, -d), (-w, -h, d), (-w, -h, -d),
     (w, h, -d),  (w, -h, d),  (w, -h, -d),
     (-w, h, -d), (w, -h, -d), (-w, -h, -d),
     (-w, h, d),  (-w, h, d),  (-w, h, -d),
     (w, -h, d),  (w, h, d),   (w, h, -d)]
  }

  /** The 12 triangles of the default mesh. */
  function BoxIndices(): (ix: seq<nat>)
    ensures |ix| == 36
  {
    [0, 1, 2,    3, 4, 5,    6, 7, 8,
     9, 10, 11,  12, 13, 14, 15, 16, 17,
     0, 18, 1,   3, 19, 4,   6, 20, 7,
     9, 21, 10,  12, 22, 13, 15, 23, 16]
  }

  function BoxNormals(): (ns: seq<(real, real, real)>)
    ensures |ns| == 24
  {
    [(0.0, 1.0, 0.0),  (0.0, 1.0, 0.0),  (0.0, 1.0, 0.0),
     (0.0, 0.0, 1.0),  (0.0, 0.0, 1.0),  (0.0, 0.0, 1.0),
     (-1.0, 0.0, 0.0), (-1.0, 0.0, 0.0), (-1.0, 0.0, 0.0),
     (0.0, -1.0, 0.0), (0.0, -1.0, 0.0), (0.0, -1.0, 0.0),
     (1.0, 0.0, 0.0),  (1.0, 0.0, 0.0),  (1.0, 0.0, 0.0),
     (0.0, 0.0, -1.0), (0.0, 0.0, -1.0), (0.0, 0.0, -1.0),
     (0.0, 1.0, 0.0),  (0.0, 0.0, 1.0),  (-1.0, 0.0, 0.0),
     (0.0, -1.0, 0.0), (1.0, 0.0, 0.0),  (0.0, 0.0, -1.0)]
  }

  function BoxTextureCoords(): (ts: seq<real>)
    ensures |ts| == 48
  {
    [0.875, 0.5,   0.625, 0.75,  0.625, 0.5,
     0.625, 0.75,  0.375, 1.0,   0.375, 0.75,
     0.625, 0.0,   0.375, 0.25,  0.375, 0.0,
     0.375, 0.5,   0.125, 0.75,  0.125, 0.5,
     0.625, 0.5,   0.375, 0.75,  0.375, 0.5,
     0.625, 0.25,  0.375, 0.5,   0.375, 0.25,
     0.875, 0.75,  0.625, 1.0,   0.625, 0.25,
     0.375, 0.75,  0.625, 0.75,  0.625, 0.5]
  }

  function BoxTangents(): (ts: seq<(real, real, real)>)
    ensures |ts| == 24
  {
    [(-8.0, 0.0, 0.0), (-8.0, 0.0, 0.0), (-8.0, 0.0, 0.0),
     (0.0, 8.0, 0.0),  (0.0, 8.0, 0.0),  (0.0, 8.0, 0.0),
     (0.0, 8.0, 0.0),  (0.0, 8.0, 0.0),  (0.0, 8.0, 0.0),
     (8.0, 0.0, 0.0),  (8.0, 0.0, 0.0),  (8.0, 0.0, 0.0),
     (0.0, 8.0, 0.0),  (0.0, 8.0, 0.0),  (0.0, 8.0, 0.0),
     (0.0, 8.0, 0.0),  (0.0, 8.0, 0.0),  (0.0, 8.0, 0.0),
     (-8.0, 0.0, 0.0), (0.0, 8.0, 0.0),  (0.0, 8.0, 0.0),
     (8.0, 0.0, 0.0),  (0.0, 8.0, 0.0),  (0.0, 8.0, 0.0)]
  }

  function BoxBitangents(): (bs: seq<(real, real, real)>)
    ensures |bs| == 24
  {
    [(16.0, 0.0, 8.0),   (16.0, 0.0, 8.0),   (16.0, 0.0, 8.0),
     (-8.0, -16.0, 0.0), (-8.0, -16.0, 0.0), (-8.0, -16.0, 0.0),
     (0.0, -16.0, -8.0), (0.0, -16.0, -8.0), (0.0, -16.0, -8.0),
     (-16.0, 0.0, 8.0),  (-16.0, 0.0, 8.0),  (-16.0, 0.0, 8.0),
     (0.0, -16.0, 8.0),  (0.0, -16.0, 8.0),  (0.0, -16.0, 8.0),
     (8.0, -16.0, 0.0),  (8.0, -16.0, 0.0),  (8.0, -16.0, 0.0),
     (0.0, 0.0, 8.0),    (-8.0, 0.0, 0.0),   (0.0, 0.0, -8.0),
     (0.0, 0.0, 8.0),    (0.0, 0.0, 8.0),    (8.0, 0.0, 0.0)]
  }

  /**
   * `createBoxMeshData(width, height, depth)`: the mesh of a box centred on
   * the origin, 24 vertices and 12 triangles.
   */
  function CreateBoxMeshData(width: real, height: real, depth: real): (m: ObjData)
    ensures |m.vertexPositions| == 72 && |m.vertexNormals| == 72 && |m.textureCoords| == 48
    ensures |m.tangents| == 72 && |m.bitangents| == 72
    ensures |m.vertexIndices| == 36
  {
    ObjData(FlattenTriples(BoxPositions(width, height, depth)), FlattenTriples(BoxNormals()), BoxIndices(),
            Nums(BoxTextureCoords()), FlattenTriples(BoxTangents()), FlattenTriples(BoxBitangents()))
  }

  /** Every index of the default mesh names one of its 24 vertices, and each vertex is used by some triangle. */
  lemma BoxIndicesFacts()
    ensures forall i :: 0 <= i < |BoxIndices()| ==> BoxIndices()[i] < 24
    ensures forall k :: 0 <= k < 24 ==> k in BoxIndices()
  {
    var ix := BoxIndices();
    forall i | 0 <= i < 36
      ensures ix[i] < 24
    {
      Below36(i);
    }
    assert forall k :: 0 <= k < 18 ==> ix[k] == k;
    assert ix[19] == 18 && ix[22] == 19 && ix[25] == 20;
    assert ix[28] == 21 && ix[31] == 22 && ix[34] == 23;
  }

  /** A point whose every coordinate is plus or minus half the box's extent on that axis. */
  predicate IsBoxCorner(width: real, height: real, depth: real, x: Scalar, y: Scalar, z: Scalar) {
    (x == Num(width / 2.0) || x == Num(-width / 2.0)) &&
    (y == Num(height / 2.0) || y == Num(-height / 2.0)) &&
    (z == Num(depth / 2.0) || z == Num(-depth / 2.0))
  }

  /** Every vertex of the default mesh is a corner of the box. */
  lemma BoxVerticesAreCorners(width: real, height: real, depth: real)
    ensures var p := CreateBoxMeshData(width, height, depth).vertexPositions;
            forall k :: 0 <= k < 24 ==> IsBoxCorner(width, height, depth, p[3 * k], p[3 * k + 1], p[3 * k + 2])
  {
    var ps := BoxPositions(width, height, depth);
    var p := CreateBoxMeshData(width, height, depth).vertexPositions;
    assert p == FlattenTriples(ps);
    forall k | 0 <= k < 24
      ensures IsBoxCorner(width, height, depth, p[3 * k], p[3 * k + 1], p[3 * k + 2])
    {
      FlattenTriplesAt(ps, k);
    }
  }

  /** The integers below 36, one by one, so that a property of a fixed list can be checked entry by entry. */
  lemma Below36(i: int)
    requires 0 <= i < 36
    ensures i == 0 || i == 1 || i == 2 || i == 3 || i == 4 || i == 5 || i == 6 || i == 7 || i == 8 ||
            i == 9 || i == 10 || i == 11 || i == 12 || i == 13 || i == 14 || i == 15 || i == 16 || i == 17 ||
            i == 18 || i == 19 || i == 20 || i == 21 || i == 22 || i == 23 || i == 24 || i == 25 || i == 26 ||
            i == 27 || i == 28 || i == 29 || i == 30 || i == 31 || i == 32 || i == 33 || i == 34 || i == 35
  {
  }

  // ---------------------------------------------------------------------------
  // getAABBVertsFromBounds

  datatype Point = Point(x: Ext, y: Ext, z: Ext)

  /** The corner of the box that takes the maximum on each axis whose flag is set. */
  function Corner(b: Bounds, hx: bool, hy: bool, hz: bool): Point {
    Point(if hx then b.maxX else b.minX, if hy then b.maxY else b.minY, if hz then b.maxZ else b.minZ)
  }

  /**
   * The edge of the box parallel to `axis`, going from the minimum to the
   * maximum along it; `s` and `t` pick the side on the two other axes, in
   * x, y, z order.
   */
  function Edge(b: Bounds, axis: nat, s: bool, t: bool): (Point, Point)
    requires axis < 3
  {
    if axis == 0 then (Corner(b, false, s, t), Corner(b, true, s, t))
    else if axis == 1 then (Corner(b, s, false, t), Corner(b, s, true, t))
    else (Corner(b, s, t, false), Corner(b, s, t, true))
  }

  /** Coordinate `c` (0, 1 or 2) of a point. */
  function Coord(p: Point, c: nat): Ext {
    if c == 0 then p.x else if c == 1 then p.y else p.z
  }

  /** Flattens points into `x, y, z, x, y, z, ...`. */
  function FlattenPoints(ps: seq<Point>): (v: seq<Ext>)
    ensures |v| == 3 * |ps|
  {
    seq(3 * |ps|, i requires 0 <= i < 3 * |ps| => Coord(ps[i / 3], i % 3))
  }

  /** The `k`-th point of line-list vertex data. */
  function PointAt(v: seq<Ext>, k: nat): Point
    requires 3 * k + 2 < |v|
  {
    Point(v[3 * k], v[3 * k + 1], v[3 * k + 2])
  }

  lemma FlattenPointsAt(ps: seq<Point>, k: nat)
    requires k < |ps|
    ensures PointAt(FlattenPoints(ps), k) == ps[k]
  {
    assert (3 * k) / 3 == k && (3 * k + 1) / 3 == k && (3 * k + 2) / 3 == k;
    assert (3 * k) % 3 == 0 && (3 * k + 1) % 3 == 1 && (3 * k + 2) % 3 == 2;
  }

  /**
   * `getAABBVertsFromBounds(bounds)`: the wireframe of a box as line-list
   * vertex data, 24 points (72 numbers) making 12 segments.
   */
  function GetAABBVertsFromBounds(b: Bounds): (v: seq<Ext>)
    ensures |v| == 72
  {
    FlattenPoints(WireframePoints(b))
  }

  function WireframePoints(b: Bounds): (ps: seq<Point>)
    ensures |ps| == 24
  {
    var (x, X, y, Y, z, Z) := (b.minX, b.maxX, b.minY, b.maxY, b.minZ, b.maxZ);
    [Point(x, y, z), Point(x, y, Z),
     Point(x, y, z), Point(x, Y, z),
     Point(x, y, z), Point(X, y, z),
     Point(x, Y, z), Point(x, Y, Z),
     Point(x, Y, z), Point(X, Y, z),
     Point(x, Y, Z), Point(X, Y, Z),
     Point(x, Y, Z), Point(x, y, Z),
     Point(X, y, Z), Point(x, y, Z),
     Point(X, y, Z), Point(X, Y, Z),
     Point(X, y, Z), Point(X, y, z),
     Point(X, Y, z), Point(X, Y, Z),
     Point(X, Y, z), Point(X, y, z)]
  }

  /** The `s`-th segment of line-list vertex data. */
  function Segment(v: seq<Ext>, s: nat): (Point, Point)
    requires 6 * s + 5 < |v|
  {
    (PointAt(v, 2 * s), PointAt(v, 2 * s + 1))
  }

  /** Two segments are the same line when they have the same ends, in either order. */
  predicate SameSegment(p: (Point, Point), q: (Point, Point)) {
    p == q || (p.0 == q.1 && p.1 == q.0)
  }

  /** The edge a wireframe segment draws: (axis, s, t) as in `Edge`. */
  function SegmentEdge(s: nat): (e: (nat, bool, bool))
    requires s < 12
    ensures e.0 < 3
  {
    [(2, false, false), (1, false, false), (0, false, false), (2, false, true),
     (0, true, false), (0, true, true), (1, false, true), (0, false, true),
     (1, true, true), (2, true, false), (2, true, true), (1, true, false)][s]
  }

  function EdgeOf(b: Bounds, e: (nat, bool, bool)): (Point, Point)
    requires e.0 < 3
  {
    Edge(b, e.0, e.1, e.2)
  }

  /** Point pair `s` of the wireframe list is the edge `SegmentEdge(s)`. */
  lemma WireframePair(b: Bounds, s: nat)
    requires s < 12
    ensures SameSegment((WireframePoints(b)[2 * s], WireframePoints(b)[2 * s + 1]), EdgeOf(b, SegmentEdge(s)))
  {
  }

  /** Segment `s` of the wireframe draws the edge `SegmentEdge(s)`. */
  lemma WireframeSegment(b: Bounds, s: nat)
    requires s < 12
    ensures SameSegment(Segment(GetAABBVertsFromBounds(b), s), EdgeOf(b, SegmentEdge(s)))
  {
    var ps := WireframePoints(b);
    FlattenPointsAt(ps, 2 * s);
    FlattenPointsAt(ps, 2 * s + 1);
    WireframePair(b, s);
  }

  /** Every segment of the wireframe is an edge of the box: segment `s` is edge `SegmentEdge(s)`. */
  lemma AabbSegmentsAreEdges(b: Bounds)
    ensures forall s: nat :: s < 12 ==>
              SegmentEdge(s).0 < 3 && SameSegment(Segment(GetAABBVertsFromBounds(b), s), EdgeOf(b, SegmentEdge(s)))
  {
    forall s: nat | s < 12
      ensures SameSegment(Segment(GetAABBVertsFromBounds(b), s), EdgeOf(b, SegmentEdge(s)))
    {
      WireframeSegment(b, s);
    }
  }

  /** Which segment draws edge (axis, p, q): the inverse of `SegmentEdge`. */
  function EdgeSegment(axis: nat, p: bool, q: bool): (s: nat)
    requires axis < 3
    ensures s < 12 && SegmentEdge(s) == (axis, p, q)
  {
    if axis == 0 then (if !p && !q then 2 else if p && !q then 4 else if p && q then 5 else 7)
    else if axis == 1 then (if !p && !q then 1 else if !p && q then 6 else if p && q then 8 else 11)
    else (if !p && !q then 0 else if !p && q then 3 else if p && !q then 9 else 10)
  }

  /** Every edge of the box is drawn by a segment of the wireframe: edge (axis, p, q) by segment `EdgeSegment(axis, p, q)`. */
  lemma AabbEdgesAreDrawn(b: Bounds)
    ensures forall axis: nat, p: bool, q: bool :: axis < 3 ==>
              SameSegment(Segment(GetAABBVertsFromBounds(b), EdgeSegment(axis, p, q)), Edge(b, axis, p, q))
  {
    forall axis: nat, p: bool, q: bool | axis < 3
      ensures SameSegment(Segment(GetAABBVertsFromBounds(b), EdgeSegment(axis, p, q)), Edge(b, axis, p, q))
    {
      WireframeSegment(b, EdgeSegment(axis, p, q));
    }
  }

  /** A box of positive extent on every axis: its corners are pairwise different. */
  predicate Proper(b: Bounds) {
    Lt(b.minX, b.maxX) && Lt(b.minY, b.maxY) && Lt(b.minZ, b.maxZ)
  }

  /** On a proper box, different labels name different edges. */
  lemma EdgesDiffer(b: Bounds, e: (nat, bool, bool), f: (nat, bool, bool))
    requires Proper(b) && e.0 < 3 && f.0 < 3
    requires SameSegment(EdgeOf(b, e), EdgeOf(b, f))
    ensures e == f
  {
    assert b.minX != b.maxX && b.minY != b.maxY && b.minZ != b.maxZ;
  }

  /** Different segments draw differently labelled edges. */
  lemma SegmentEdgeInjective(s: nat, t: nat)
    requires s < 12 && t < 12 && SegmentEdge(s) == SegmentEdge(t)
    ensures s == t
  {
    var e := SegmentEdge(s);
    assert EdgeSegment(e.0, e.1, e.2) == s by {
        if s == 0 { }
        else if s == 1 { }
        else if s == 2 { }
        else if s == 3 { }
        else if s == 4 { }
        else if s == 5 { }
        else if s == 6 { }
        else if s == 7 { }
        else if s == 8 { }
        else if s == 9 { }
        else if s == 10 { }
        else { }
    }
    assert EdgeSegment(e.0, e.1, e.2) == t by {
        if t == 0 { }
        else if t == 1 { }
        else if t == 2 { }
        else if t == 3 { }
        else if t == 4 { }
        else if t == 5 { }
        else if t == 6 { }
        else if t == 7 { }
        else if t == 8 { }
        else if t == 9 { }
        else if t == 10 { }
        else { }
    }
  }

  /** No edge is drawn twice: with 12 segments and 12 edges, each edge is drawn exactly once. */
  lemma AabbSegmentsDistinct(b: Bounds)
    requires Proper(b)
    ensures forall s: nat, t: nat :: s < t < 12 ==>
              !SameSegment(Segment(GetAABBVertsFromBounds(b), s), Segment(GetAABBVertsFromBounds(b), t))
  {
    var v := GetAABBVertsFromBounds(b);
    forall s: nat, t: nat | s < t < 12
      ensures !SameSegment(Segment(v, s), Segment(v, t))
    {
      WireframeSegment(b, s);
      WireframeSegment(b, t);
      if SameSegment(Segment(v, s), Segment(v, t)) {
        EdgesDiffer(b, SegmentEdge(s), SegmentEdge(t));
        SegmentEdgeInjective(s, t);
        assert false;
      }
    }
  }

  // ---------------------------------------------------------------------------
  // isPowerOf2

  /**
   * The 32-bit pattern JavaScript's bitwise operators work on: the number
   * modulo 2^32 (ToInt32 without the sign reinterpretation, which does not
   * change the bits).
   */
  function Bits32(x: int): (u: nat)
    ensures u < 0x1_0000_0000
  {
    x % 0x1_0000_0000
  }

  /** Bitwise AND of two non-negative integers. */
  function BitAnd(a: nat, b: nat): (r: nat)
    ensures r <= a && r <= b
  {
    if a == 0 || b == 0 then 0
    else 2 * BitAnd(a / 2, b / 2) + (if a % 2 == 1 && b % 2 == 1 then 1 else 0)
  }

  /** `isPowerOf2(value)`: `(value & (value - 1)) == 0`. */
  predicate IsPowerOf2(value: int) {
    BitAnd(Bits32(value), Bits32(value - 1)) == 0
  }

  /** Powers of two, 1, 2, 4, ... */
  predicate IsPow2(n: nat)
    decreases n
  {
    n == 1 || (n > 1 && n % 2 == 0 && IsPow2(n / 2))
  }

  lemma {:induction false} BitAndSelf(a: nat)
    ensures BitAnd(a, a) == a
  {
    if a > 0 {
      BitAndSelf(a / 2);
    }
  }

  /** For a positive `v`, `v & (v - 1)` clears the lowest set bit, leaving 0 exactly for powers of two. */
  lemma {:induction false} ClearLowestBit(v: nat)
    requires v >= 1
    ensures BitAnd(v, v - 1) == 0 <==> IsPow2(v)
  {
    if v > 1 {
      if v % 2 == 1 {
        BitAndSelf(v / 2);
        assert (v - 1) / 2 == v / 2 && (v - 1) % 2 == 0;
        assert BitAnd(v, v - 1) == 2 * BitAnd(v / 2, v / 2);
      } else {
        ClearLowestBit(v / 2);
        assert (v - 1) / 2 == v / 2 - 1 && (v - 1) % 2 == 1;
        assert BitAnd(v, v - 1) == 2 * BitAnd(v / 2, v / 2 - 1);
      }
    }
  }

  /**
   * On the 32-bit range, the test accepts exactly the powers of two and 0
   * (0 passes because `0 & -1` is 0).
   */
  lemma {:induction false} IsPowerOf2Iff(value: int)
    requires 0 <= value < 0x1_0000_0000
    ensures IsPowerOf2(value) <==> value == 0 || IsPow2(value)
  {
    if value == 0 {
      assert Bits32(value) == 0;
    } else {
      assert Bits32(value) == value && Bits32(value - 1) == value - 1;
      assert IsPowerOf2(value) <==> BitAnd(value, value - 1) == 0;
      ClearLowestBit(value);
    }
  }

  // ---------------------------------------------------------------------------
  // arrayEquals

  /** JavaScript `x != y` on numbers: NaN differs from everything, itself included. */
  predicate LooseDiffers(x: Scalar, y: Scalar) {
    x.NaN? || y.NaN? || x.v != y.v
  }

  /** `arrayEquals(a, b)`: same length, and no position where the entries differ under `!=`. */
  method ArrayEquals(a: seq<Scalar>, b: seq<Scalar>) returns (r: bool)
    ensures r <==> |a| == |b| && forall i :: 0 <= i < |a| ==> !LooseDiffers(a[i], b[i])
  {
    if |a| != |b| {
      return false;
    }
    var i := 0;
    while i < |a|
      invariant 0 <= i <= |a|
      invariant forall j :: 0 <= j < i ==> !LooseDiffers(a[j], b[j])
    {
      if LooseDiffers(a[i], b[i]) {
        return false;
      }
      i := i + 1;
    }
    return true;
  }

  /** On arrays without NaN the comparison is exactly sequence equality; an array with NaN never equals anything. */
  lemma ArrayEqualsMeaning(a: seq<Scalar>, b: seq<Scalar>)
    ensures (|a| == |b| && forall i :: 0 <= i < |a| ==> !LooseDiffers(a[i], b[i])) <==>
            (a == b && forall i :: 0 <= i < |a| ==> a[i].Num?)
  {
    if |a| == |b| && forall i :: 0 <= i < |a| ==> !LooseDiffers(a[i], b[i]) {
      assert forall i :: 0 <= i < |a| ==> a[i] == b[i];
    }
  }
}
