/**
 * Three-component vectors over the reals, and the few transcendental
 * functions the simulation and the renderers call.
 *
 * The source stores vectors as `std::vector<float>` of length 3 or as
 * `glm::vec3`; float rounding is not modelled, so every component is a `real`.
 * `sqrt`, `cos` and `sin` are left uninterpreted: the only fact the model uses
 * about `sqrt` is that it is positive on positive input.
 */
module Vectors {

  datatype Vec3 = Vec3(x: real, y: real, z: real)

  const Zero: Vec3 := Vec3(0.0, 0.0, 0.0)

  /** M_PI from <cmath>. */
  const Pi: real := 3.14159265358979323846

  /** A square root as far as the model needs one: positive on positive input. */
  predicate PositiveInput(t: real) {
    t > 0.0
  }

  type PositiveRoot = f: real -> real | forall t {:trigger PositiveInput(t)} :: PositiveInput(t) ==> f(t) > 0.0
    witness (t: real) => 1.0

  const Sqrt: PositiveRoot
  const Cos: real -> real
  const Sin: real -> real

  function Add(u: Vec3, v: Vec3): Vec3 {
    Vec3(u.x + v.x, u.y + v.y, u.z + v.z)
  }

  function Sub(u: Vec3, v: Vec3): Vec3 {
    Vec3(u.x - v.x, u.y - v.y, u.z - v.z)
  }

  function Scale(k: real, v: Vec3): Vec3 {
    Vec3(k * v.x, k * v.y, k * v.z)
  }

  /** The zero vector is neutral for addition. */
  lemma AddZero(v: Vec3)
    ensures Add(Zero, v) == v && Add(v, Zero) == v
  {
  }

  /** Two points are distinct exactly when the vector between them is not zero. */
  lemma SubNonZero(a: Vec3, b: Vec3)
    ensures a != b <==> Sub(a, b) != Zero
    ensures a != b <==> Sub(b, a) != Zero
  {
  }

  /** `t * t`, named so that facts about a square stay attached to it. */
  function Sq(t: real): real {
    t * t
  }

  function NormSquared(v: Vec3): real {
    Sq(v.x) + Sq(v.y) + Sq(v.z)
  }

  /** `sqrt(dx * dx + dy * dy + dz * dz)`, as every force computation writes it. */
  function Norm(v: Vec3): real {
    Sqrt(NormSquared(v))
  }

  lemma ProductPositive(a: real, b: real, p: real)
    requires a > 0.0 && b > 0.0 && p == a * b
    ensures p > 0.0
  {
  }

  lemma SquareNonNegative(t: real)
    ensures Sq(t) >= 0.0
  {
  }

  lemma SquarePositive(t: real)
    requires t != 0.0
    ensures Sq(t) > 0.0
  {
    if t < 0.0 {
      ProductPositive(-t, -t, Sq(t));
    } else {
      ProductPositive(t, t, Sq(t));
    }
  }

  lemma SquareOfOpposite(t: real)
    ensures Sq(-t) == Sq(t)
  {
  }

  lemma CubePositive(n: real)
    requires n > 0.0
    ensures n * n * n > 0.0
  {
  }

  /** The squared norm is zero exactly at the zero vector. */
  lemma NormSquaredPositive(v: Vec3)
    ensures v != Zero <==> NormSquared(v) > 0.0
  {
    SquareNonNegative(v.x);
    SquareNonNegative(v.y);
    SquareNonNegative(v.z);
    if v.x != 0.0 {
      SquarePositive(v.x);
    } else if v.y != 0.0 {
      SquarePositive(v.y);
    } else if v.z != 0.0 {
      SquarePositive(v.z);
    }
  }

  /** The norm, and so its cube, is positive for every vector other than zero. */
  lemma NormCubedPositive(v: Vec3)
    requires v != Zero
    ensures Norm(v) > 0.0
    ensures Norm(v) * Norm(v) * Norm(v) > 0.0
  {
    NormSquaredPositive(v);
    assert PositiveInput(NormSquared(v));
    CubePositive(Norm(v));
  }

  /** A vector and its opposite have the same length: `|a - b| == |b - a|`. */
  lemma NormOfReversed(a: Vec3, b: Vec3)
    ensures Norm(Sub(a, b)) == Norm(Sub(b, a))
  {
    SquareOfOpposite(a.x - b.x);
    SquareOfOpposite(a.y - b.y);
    SquareOfOpposite(a.z - b.z);
    assert NormSquared(Sub(a, b)) == NormSquared(Sub(b, a));
  }
}
