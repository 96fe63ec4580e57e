/**
 * Exact 3-vectors over the reals: the column vectors that bodies hold as
 * position and velocity. Floating-point rounding is not modelled.
 */
module Vectors {

  datatype Vec3 = Vec3(x: real, y: real, z: real)

  const Zero: Vec3 := Vec3(0.0, 0.0, 0.0)

  function Add(u: Vec3, v: Vec3): Vec3 {
    Vec3(u.x + v.x, u.y + v.y, u.z + v.z)
  }

  function Sub(u: Vec3, v: Vec3): Vec3 {
    Vec3(u.x - v.x, u.y - v.y, u.z - v.z)
  }

  function Neg(v: Vec3): Vec3 {
    Vec3(-v.x, -v.y, -v.z)
  }

  /** Multiplication of a vector by a scalar, `k * v`. */
  function Scale(k: real, v: Vec3): Vec3 {
    Vec3(k * v.x, k * v.y, k * v.z)
  }

  /** Division of a vector by a non-zero scalar, `v / k`. */
  function Div(v: Vec3, k: real): Vec3
    requires k != 0.0
  {
    Vec3(v.x / k, v.y / k, v.z / k)
  }

  /** The squared Euclidean norm. */
  function NormSq(v: Vec3): real {
    v.x * v.x + v.y * v.y + v.z * v.z
  }

  /**
   * `r` is the Euclidean norm of `v`. The reals of Dafny have no square
   * root, so the norm is carried as a value this predicate pins down.
   */
  predicate IsNorm(v: Vec3, r: real) {
    r >= 0.0 && r * r == NormSq(v)
  }

  /** A vector has exactly one norm. */
  lemma NormUnique(v: Vec3, r1: real, r2: real)
    requires IsNorm(v, r1) && IsNorm(v, r2)
    ensures r1 == r2
  {
    if r1 < r2 {
      SquareStrictMono(r1, r2);
    } else if r2 < r1 {
      SquareStrictMono(r2, r1);
    }
  }

  lemma SquareStrictMono(a: real, b: real)
    requires 0.0 <= a < b
    ensures a * a < b * b
  {
    assert a * (b - a) >= 0.0;
    assert b * (b - a) > 0.0;
    assert b * b - a * a == a * (b - a) + b * (b - a);
  }

  lemma SquareNonNegative(a: real)
    ensures a * a >= 0.0
  {
    if a < 0.0 {
      assert a * a == (-a) * (-a);
    }
  }

  lemma SquareZero(a: real)
    ensures a * a == 0.0 ==> a == 0.0
  {
    if a > 0.0 {
      SquareStrictMono(0.0, a);
    } else if a < 0.0 {
      SquareStrictMono(0.0, -a);
    }
  }

  /** The norm is zero exactly for the zero vector. */
  lemma NormZeroIff(v: Vec3, r: real)
    requires IsNorm(v, r)
    ensures r == 0.0 <==> v == Zero
  {
    if r == 0.0 {
      SquareNonNegative(v.x);
      SquareNonNegative(v.y);
      SquareNonNegative(v.z);
      SquareZero(v.x);
      SquareZero(v.y);
      SquareZero(v.z);
    } else {
      SquareZero(r);
    }
  }

  lemma AddAssoc(u: Vec3, v: Vec3, w: Vec3)
    ensures Add(Add(u, v), w) == Add(u, Add(v, w))
  {
  }

  lemma AddZero(u: Vec3)
    ensures Add(Zero, u) == u && Add(u, Zero) == u
  {
  }

  /** The difference of two vectors is zero exactly when they are equal. */
  lemma SubZeroIff(u: Vec3, v: Vec3)
    ensures Sub(u, v) == Zero <==> u == v
  {
  }

  /** Negating a vector keeps its norm. */
  lemma NormNeg(v: Vec3, r: real)
    ensures IsNorm(v, r) <==> IsNorm(Neg(v), r)
  {
  }
}
