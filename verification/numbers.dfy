/**
 * Numbers as the engine sees them.
 *
 * `Ext` is a real extended with the two IEEE-754 infinities; it is what the
 * bounding-box code works with, since model bounds start at +/-Infinity and
 * the ray test divides by direction components that may be zero.
 * `Scalar` is an entry of a vertex array: a number, or a value that compares
 * false against every number (NaN, or `undefined` read past an array's end).
 */
module Numbers {

  datatype Vec3 = Vec3(x: real, y: real, z: real)

  datatype Ext = NegInf | Fin(v: real) | PosInf

  datatype Scalar = Num(v: real) | NaN

  /** JavaScript's `a < b` on extended reals. */
  predicate Lt(a: Ext, b: Ext) {
    match (a, b)
    case (NegInf, NegInf) => false
    case (NegInf, _) => true
    case (Fin(x), Fin(y)) => x < y
    case (Fin(_), PosInf) => true
    case (_, _) => false
  }

  predicate Le(a: Ext, b: Ext) {
    !Lt(b, a)
  }

  function Min(a: Ext, b: Ext): (r: Ext)
    ensures Le(r, a) && Le(r, b) && (r == a || r == b)
  {
    if Lt(b, a) then b else a
  }

  function Max(a: Ext, b: Ext): (r: Ext)
    ensures Le(a, r) && Le(b, r) && (r == a || r == b)
  {
    if Lt(a, b) then b else a
  }

  /** `e + p` for a finite `p`: an infinity absorbs the finite summand. */
  function Plus(e: Ext, p: real): (r: Ext)
    ensures r.Fin? <==> e.Fin?
    ensures e.Fin? ==> r.v - p == e.v
  {
    match e
    case Fin(x) => Fin(x + p)
    case _ => e
  }

  /** `e - p` for a finite `p`. */
  function Minus(e: Ext, p: real): (r: Ext)
    ensures Plus(r, p) == e
  {
    Plus(e, -p)
  }

  /** Division is NaN exactly for 0/0 (and for infinity/infinity, which never arises here). */
  predicate DivDefined(n: Ext, d: real) {
    !(n == Fin(0.0) && d == 0.0)
  }

  /**
   * IEEE-754 division of an extended real by a finite divisor; a zero divisor
   * is +0 (the direction vectors of the engine never hold -0), so x / 0 is
   * an infinity with the sign of x.
   */
  function Div(n: Ext, d: real): (r: Ext)
    requires DivDefined(n, d)
    ensures d != 0.0 && n.Fin? ==> r == Fin(n.v / d)
    ensures d == 0.0 ==> !r.Fin?
  {
    match n
    case Fin(x) =>
      if d != 0.0 then Fin(x / d)
      else if x > 0.0 then PosInf else NegInf
    case PosInf => if d >= 0.0 then PosInf else NegInf
    case NegInf => if d >= 0.0 then NegInf else PosInf
  }

  /** `x < e` where `x` is a vertex-array entry: false whenever `x` is not a number. */
  predicate ScalarLt(x: Scalar, e: Ext) {
    x.Num? && Lt(Fin(x.v), e)
  }

  /** `x > e` where `x` is a vertex-array entry. */
  predicate ScalarGt(x: Scalar, e: Ext) {
    x.Num? && Lt(e, Fin(x.v))
  }

  lemma LeTotal(a: Ext, b: Ext)
    ensures Le(a, b) || Le(b, a)
  {
  }

  lemma LeTrans(a: Ext, b: Ext, c: Ext)
    requires Le(a, b) && Le(b, c)
    ensures Le(a, c)
  {
  }

  lemma LtLeTrans(a: Ext, b: Ext, c: Ext)
    requires Lt(a, b) && Le(b, c)
    ensures Lt(a, c)
  {
  }

  lemma LeLtTrans(a: Ext, b: Ext, c: Ext)
    requires Le(a, b) && Lt(b, c)
    ensures Lt(a, c)
  {
  }

  lemma PlusMonotone(a: Ext, b: Ext, p: real)
    ensures Le(Plus(a, p), Plus(b, p)) <==> Le(a, b)
  {
  }
}
