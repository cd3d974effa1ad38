/**
 * Newtonian gravity and position-Verlet integration: the `CelestialObject`
 * and `OrbitalSystem` classes of include/celestial_object.hpp.
 *
 * A `CelestialObject` owns its position `r`, the position one tick ago
 * `rPrev`, its initial velocity `v`, the acceleration `a` used by the last
 * integration, the acceleration being accumulated for the coming tick
 * `totalAcceleration`, and its mass `m`. An `OrbitalSystem` refers to a
 * centre body and an ordered sequence of orbiters (the C++ raw pointers);
 * every tick it resets the accelerations, adds the centre's pull on each
 * orbiter, adds the pull of every other orbiter through one pass over the
 * pairs `i < j`, and then integrates.
 */
module Gravity {
  import opened Vectors

  /** Gravitational constant, m^3 kg^-1 s^-2. */
  const G: real := 6.674e-11
  /** The fixed physics tick: six hours, in seconds. */
  const Dt: real := 6.0 * 3600.0

  // ---------------------------------------------------------------------
  // The recurrences, as functions of values
  // ---------------------------------------------------------------------

  /** Position Verlet: `2 r - r_prev + h^2 acc`, component by component. */
  function VerletNext(r: Vec3, rPrev: Vec3, acc: Vec3, h: real): Vec3 {
    Vec3(2.0 * r.x - rPrev.x + Sq(h) * acc.x,
         2.0 * r.y - rPrev.y + Sq(h) * acc.y,
         2.0 * r.z - rPrev.z + Sq(h) * acc.z)
  }

  /** The backward second-order Taylor step that primes Verlet: `r - v h + h^2 acc / 2`. */
  function VerletPrime(r: Vec3, v: Vec3, acc: Vec3, h: real): Vec3 {
    Vec3(r.x - v.x * h + 0.5 * Sq(h) * acc.x,
         r.y - v.y * h + 0.5 * Sq(h) * acc.y,
         r.z - v.z * h + 0.5 * Sq(h) * acc.z)
  }

  /**
   * Position Verlet is time-reversible: stepping back from the new position
   * with the same acceleration recovers the previous one.
   */
  lemma VerletReversible(r: Vec3, rPrev: Vec3, acc: Vec3, h: real)
    ensures VerletNext(r, VerletNext(r, rPrev, acc, h), acc, h) == rPrev
  {
  }

  /**
   * The first step after priming is the forward Taylor expansion
   * `r + v h + h^2 acc / 2`: priming makes Verlet start from the velocity given.
   */
  lemma PrimedFirstStep(r: Vec3, v: Vec3, acc: Vec3, h: real)
    ensures VerletNext(r, VerletPrime(r, v, acc, h), acc, h)
         == Vec3(r.x + v.x * h + 0.5 * Sq(h) * acc.x,
                 r.y + v.y * h + 0.5 * Sq(h) * acc.y,
                 r.z + v.z * h + 0.5 * Sq(h) * acc.z)
  {
    var prev := VerletPrime(r, v, acc, h);
    var next := VerletNext(r, prev, acc, h);
    PrimedComponent(r.x, v.x, h, Sq(h), acc.x);
    PrimedComponent(r.y, v.y, h, Sq(h), acc.y);
    PrimedComponent(r.z, v.z, h, Sq(h), acc.z);
    assert next.x == r.x + v.x * h + 0.5 * Sq(h) * acc.x;
    assert next.y == r.y + v.y * h + 0.5 * Sq(h) * acc.y;
    assert next.z == r.z + v.z * h + 0.5 * Sq(h) * acc.z;
  }

  lemma PrimedComponent(r: real, v: real, h: real, s: real, a: real)
    ensures 2.0 * r - (r - v * h + 0.5 * s * a) + s * a == r + v * h + 0.5 * s * a
  {
    assert 0.5 * s * a == 0.5 * (s * a);
  }

  /** A body whose previous position equals its position and that feels nothing does not move. */
  lemma AtRestStaysAtRest(r: Vec3, h: real)
    ensures VerletNext(r, r, Zero, h) == r
  {
  }

  // ---------------------------------------------------------------------
  // Newton's law of gravitation
  // ---------------------------------------------------------------------

  /** `1 / |d|^3`, defined for every separation other than zero and then positive. */
  function InverseCube(d: Vec3): (c: real)
    requires d != Zero
    ensures c > 0.0
  {
    NormCubedPositive(d);
    var n := Norm(d);
    1.0 / (n * n * n)
  }

  /** The separation has the same length whichever body it is measured from. */
  lemma InverseCubeOfReversed(a: Vec3, b: Vec3)
    requires a != b
    ensures Sub(a, b) != Zero && Sub(b, a) != Zero
    ensures InverseCube(Sub(a, b)) == InverseCube(Sub(b, a))
  {
    SubNonZero(a, b);
    NormOfReversed(a, b);
  }

  /**
   * The factor `G m / |d|^3` by which the separation `d` is multiplied.
   * It is positive whenever the attracting mass is, so the pull always
   * points from the attracted body towards the attracting one.
   */
  function Strength(d: Vec3, m: real): (k: real)
    requires d != Zero
    ensures m >= 0.0 ==> k >= 0.0
    ensures m > 0.0 ==> k > 0.0
  {
    var c := InverseCube(d);
    StrengthSign(m, c);
    G * m * c
  }

  lemma StrengthSign(m: real, c: real)
    requires c > 0.0
    ensures m >= 0.0 ==> G * m * c >= 0.0
    ensures m > 0.0 ==> G * m * c > 0.0
  {
    if m > 0.0 {
      ProductPositive(G, m, G * m);
      ProductPositive(G * m, c, G * m * c);
    }
  }

  /**
   * The acceleration that a body at `source` of mass `m` gives a body at
   * `at`: `G m / |d|^3 * d` with `d = source - at`. Coincident positions
   * divide by zero in the source and are excluded here.
   */
  function Pull(at: Vec3, source: Vec3, m: real): Vec3
    requires at != source
  {
    var d := Sub(source, at);
    Scale(Strength(d, m), d)
  }

  /** `m_i * Strength(d, m_j) == m_j * Strength(d, m_i)`: the masses trade places. */
  lemma StrengthSwap(d: Vec3, mi: real, mj: real)
    requires d != Zero
    ensures mi * Strength(d, mj) == mj * Strength(d, mi)
  {
    var c := InverseCube(d);
    assert mi * (G * mj * c) == mj * (G * mi * c);
  }

  /** The strength depends on the separation only through its length. */
  lemma StrengthReversed(a: Vec3, b: Vec3, m: real)
    requires a != b
    ensures Sub(a, b) != Zero && Sub(b, a) != Zero
    ensures Strength(Sub(a, b), m) == Strength(Sub(b, a), m)
  {
    InverseCubeOfReversed(a, b);
  }

  lemma CancelComponent(mi: real, mj: real, ki: real, kj: real, t: real)
    requires mi * kj == mj * ki
    ensures mi * (kj * t) == -mj * (ki * (0.0 - t))
  {
    assert mi * (kj * t) == (mi * kj) * t;
    assert -mj * (ki * (0.0 - t)) == (mj * ki) * t;
  }

  /** The third law with the strengths abstracted: equal weighted strengths cancel. */
  lemma ScaledPullsCancel(mi: real, mj: real, ki: real, kj: real, d: Vec3, forward: Vec3, backward: Vec3)
    requires mi * kj == mj * ki
    requires forward == Scale(kj, d) && backward == Scale(ki, Sub(Zero, d))
    ensures Scale(mi, forward) == Scale(-mj, backward)
  {
    CancelComponent(mi, mj, ki, kj, d.x);
    CancelComponent(mi, mj, ki, kj, d.y);
    CancelComponent(mi, mj, ki, kj, d.z);
  }

  /**
   * Newton's third law: `m_i * accFrom(i <- j) == -m_j * accFrom(j <- i)`.
   * Both pulls are recomputed from the definition, and they agree because
   * the separation has the same norm in both directions.
   */
  lemma ThirdLaw(pi: Vec3, pj: Vec3, mi: real, mj: real)
    requires pi != pj
    ensures Scale(mi, Pull(pi, pj, mj)) == Scale(-mj, Pull(pj, pi, mi))
  {
    var d := Sub(pj, pi);
    StrengthReversed(pj, pi, mi);
    StrengthSwap(d, mi, mj);
    assert Sub(pi, pj) == Sub(Zero, d);
    ScaledPullsCancel(mi, mj, Strength(d, mi), Strength(d, mj), d, Pull(pi, pj, mj), Pull(pj, pi, mi));
  }

  /**
   * The pull towards a fixed attractor of mass `mass` at the origin, written as
   * planet.hpp and two_body_simulation.cpp write it: `-(G M / |r|^3) r`.
   */
  function SunPull(r: Vec3, mass: real): Vec3
    requires r != Zero
  {
    NormCubedPositive(r);
    var n := Norm(r);
    Scale(-(G * mass / (n * n * n)), r)
  }

  /**
   * The single-attractor formula is the general law with the source at the
   * origin, so it is a non-positive multiple of `r`: it points towards the origin.
   */
  lemma SunPullIsPull(r: Vec3, mass: real)
    requires r != Zero
    ensures SunPull(r, mass) == Pull(r, Zero, mass)
    ensures SunPull(r, mass) == Scale(-Strength(Sub(Zero, r), mass), r)
  {
    NormCubedPositive(r);
    var n := Norm(r);
    var q := n * n * n;
    InverseCubeOfReversed(r, Zero);
    assert Sub(r, Zero) == r;
    var k := Strength(Sub(Zero, r), mass);
    assert k == G * mass * (1.0 / q);
    DivideByCube(G * mass, q);
    ScaleOfOpposite(k, r);
  }

  lemma DivideByCube(a: real, q: real)
    requires q > 0.0
    ensures a / q == a * (1.0 / q)
  {
  }

  /** Scaling the opposite vector is scaling by the opposite factor. */
  lemma ScaleOfOpposite(k: real, v: Vec3)
    ensures Scale(k, Sub(Zero, v)) == Scale(-k, v)
  {
  }

  // ---------------------------------------------------------------------
  // The sums the force pass accumulates
  // ---------------------------------------------------------------------

  /** Position `k` differs from every other position in `pos`. */
  predicate Apart(pos: seq<Vec3>, k: nat)
    requires k < |pos|
  {
    forall j :: 0 <= j < |pos| && j != k ==> pos[j] != pos[k]
  }

  /**
   * The pulls the other bodies at `pos`, of masses `ms`, exert on body `k`,
   * indexed by the attracting body; body `k`'s own slot holds zero.
   */
  function PullsOn(pos: seq<Vec3>, ms: seq<real>, k: nat): (ps: seq<Vec3>)
    requires |ms| == |pos| && k < |pos| && Apart(pos, k)
    ensures |ps| == |pos| && ps[k] == Zero
    ensures forall j :: 0 <= j < |pos| && j != k ==> ps[j] == Pull(pos[k], pos[j], ms[j])
  {
    seq(|pos|, j requires 0 <= j < |pos| => if j == k then Zero else Pull(pos[k], pos[j], ms[j]))
  }

  /** Every position in `pos` differs from every other one. */
  predicate AllApart(pos: seq<Vec3>) {
    forall p, q :: 0 <= p < |pos| && 0 <= q < |pos| && p != q ==> pos[p] != pos[q]
  }

  /** `vs[0] + vs[1] + ... + vs[hi - 1]`. */
  function Total(vs: seq<Vec3>, hi: nat): Vec3
    requires hi <= |vs|
  {
    if hi == 0 then Zero else Add(Total(vs, hi - 1), vs[hi - 1])
  }

  /** A running total: `start`, then `vs[lo]`, ..., `vs[hi - 1]` added in that order. */
  function AddRange(start: Vec3, vs: seq<Vec3>, lo: nat, hi: nat): Vec3
    requires lo <= hi <= |vs|
    decreases hi - lo
  {
    if hi == lo then start else Add(AddRange(start, vs, lo, hi - 1), vs[hi - 1])
  }

  /** Adding the terms one by one onto `start` is `start` plus their sum. */
  lemma {:induction false} AddRangeIsTotal(start: Vec3, vs: seq<Vec3>, hi: nat)
    requires hi <= |vs|
    ensures AddRange(start, vs, 0, hi) == Add(start, Total(vs, hi))
  {
    if hi > 0 {
      AddRangeIsTotal(start, vs, hi - 1);
    }
  }

  /** A running total can be stopped at `mid` and resumed from there. */
  lemma {:induction false} AddRangeSplit(start: Vec3, vs: seq<Vec3>, mid: nat, hi: nat)
    requires mid <= hi <= |vs|
    ensures AddRange(AddRange(start, vs, 0, mid), vs, mid, hi) == AddRange(start, vs, 0, hi)
  {
    if hi > mid {
      AddRangeSplit(start, vs, mid, hi - 1);
    }
  }

  /**
   * What orbiter `k` must hold after the force pass: the centre's pull plus
   * the pull of every other orbiter.
   */
  function NetPull(centerPos: Vec3, centerMass: real, pos: seq<Vec3>, ms: seq<real>, k: nat): Vec3
    requires |ms| == |pos| && k < |pos| && Apart(pos, k) && pos[k] != centerPos
  {
    Add(Pull(pos[k], centerPos, centerMass), Total(PullsOn(pos, ms, k), |pos|))
  }

  /**
   * Orbiter `k`'s accumulator once the outer pairwise loop has run rows `0`
   * to `i - 1`, having started from `starts`: onto its start value it has
   * added, in index order, the pull of every other orbiter if `k < i` (its
   * own row and the earlier rows gave it all of them), and the pulls of
   * orbiters `0` to `i - 1` otherwise.
   */
  function AfterRows(starts: seq<Vec3>, pos: seq<Vec3>, ms: seq<real>, i: nat, k: nat): Vec3
    requires |starts| == |pos| && |ms| == |pos| && AllApart(pos) && i <= |pos| && k < |pos|
  {
    AddRange(starts[k], PullsOn(pos, ms, k), 0, if k < i then |pos| else i)
  }

  /**
   * Orbiter `k`'s accumulator part-way through row `i`, which started from
   * `before`: orbiter `i` has added the pulls of orbiters `i + 1` to `j - 1`
   * in index order, each of those has added the pull of orbiter `i`, and
   * every other accumulator is as it was.
   */
  function MidRow(before: seq<Vec3>, pos: seq<Vec3>, ms: seq<real>, i: nat, j: nat, k: nat): Vec3
    requires |before| == |pos| && |ms| == |pos| && AllApart(pos) && i < j <= |pos| && k < |pos|
  {
    if k == i then AddRange(before[i], PullsOn(pos, ms, i), i + 1, j)
    else if i < k < j then Add(before[k], Pull(pos[k], pos[i], ms[i]))
    else before[k]
  }

  /**
   * Handling the pair `(i, j)` moves row `i` on by one orbiter: `i` adds the
   * pull of `j`, `j` adds the pull of `i`, and no other accumulator changes.
   */
  lemma PairExchange(before: seq<Vec3>, pos: seq<Vec3>, ms: seq<real>, i: nat, j: nat)
    requires |before| == |pos| && |ms| == |pos| && AllApart(pos) && i < j < |pos|
    ensures MidRow(before, pos, ms, i, j + 1, i) == Add(MidRow(before, pos, ms, i, j, i), Pull(pos[i], pos[j], ms[j]))
    ensures MidRow(before, pos, ms, i, j + 1, j) == Add(MidRow(before, pos, ms, i, j, j), Pull(pos[j], pos[i], ms[i]))
    ensures forall k :: 0 <= k < |pos| && k != i && k != j ==> MidRow(before, pos, ms, i, j + 1, k) == MidRow(before, pos, ms, i, j, k)
  {
    assert PullsOn(pos, ms, i)[j] == Pull(pos[i], pos[j], ms[j]);
  }

  /** A finished row `i` turns "rows before `i` done" into "rows before `i + 1` done". */
  lemma RowComplete(before: seq<Vec3>, starts: seq<Vec3>, pos: seq<Vec3>, ms: seq<real>, i: nat)
    requires |before| == |pos| && |starts| == |pos| && |ms| == |pos| && AllApart(pos) && i < |pos|
    requires forall k :: 0 <= k < |pos| ==> before[k] == AfterRows(starts, pos, ms, i, k)
    ensures forall k :: 0 <= k < |pos| ==> MidRow(before, pos, ms, i, |pos|, k) == AfterRows(starts, pos, ms, i + 1, k)
  {
    var n := |pos|;
    forall k | 0 <= k < n
      ensures MidRow(before, pos, ms, i, n, k) == AfterRows(starts, pos, ms, i + 1, k)
    {
      var row := PullsOn(pos, ms, k);
      if k == i {
        AddZero(AddRange(starts[k], row, 0, i));
        AddRangeSplit(starts[k], row, i + 1, n);
      } else if k > i {
        assert row[i] == Pull(pos[k], pos[i], ms[i]);
      }
    }
  }

  /**
   * What the force pass leaves in orbiter `k`: the centre's pull added to a
   * cleared accumulator, then the other orbiters' pulls in the order the
   * pairwise loop adds them. That is the net pull.
   */
  lemma PassGivesNetPull(centerPos: Vec3, centerMass: real, pos: seq<Vec3>, ms: seq<real>, starts: seq<Vec3>)
    requires |ms| == |pos| && |starts| == |pos| && AllApart(pos)
    requires forall k :: 0 <= k < |pos| ==> pos[k] != centerPos
    requires forall k :: 0 <= k < |pos| ==> starts[k] == Add(Zero, Pull(pos[k], centerPos, centerMass))
    ensures forall k :: 0 <= k < |pos| ==> AfterRows(starts, pos, ms, |pos|, k) == NetPull(centerPos, centerMass, pos, ms, k)
  {
    forall k | 0 <= k < |pos|
      ensures AfterRows(starts, pos, ms, |pos|, k) == NetPull(centerPos, centerMass, pos, ms, k)
    {
      var p := Pull(pos[k], centerPos, centerMass);
      AddZero(p);
      AddRangeIsTotal(p, PullsOn(pos, ms, k), |pos|);
    }
  }

  /** Lexicographic order on index pairs, the order in which the pass visits them. */
  predicate LexLess(p: (int, int), q: (int, int)) {
    p.0 < q.0 || (p.0 == q.0 && p.1 < q.1)
  }

  /** The pairs the inner loop of row `i` has visited before reaching `j`: `(i, i + 1)`, ..., `(i, j - 1)`. */
  function RowPairs(i: nat, j: nat): seq<(int, int)>
  {
    seq(if j <= i + 1 then 0 else j - i - 1, p => (i, i + 1 + p))
  }

  /** One more turn of the inner loop appends `(i, j)` to its row. */
  lemma RowPairsNext(i: nat, j: nat)
    requires i < j
    ensures RowPairs(i, j) + [(i, j)] == RowPairs(i, j + 1)
  {
    assert |RowPairs(i, j) + [(i, j)]| == |RowPairs(i, j + 1)|;
  }

  /** The rows a pass over `n` orbiters records: row `r` is the inner loop's pairs for `i == r`. */
  predicate RowsOfPass(rows: seq<seq<(int, int)>>, n: nat)
  {
    |rows| <= n && forall r :: 0 <= r < |rows| ==> rows[r] == RowPairs(r, n)
  }

  /** A pass that records row `|rows|` next still records the rows of a pass. */
  lemma RowsOfPassNext(rows: seq<seq<(int, int)>>, n: nat, row: seq<(int, int)>)
    requires RowsOfPass(rows, n) && |rows| < n && row == RowPairs(|rows|, n)
    ensures RowsOfPass(rows + [row], n)
  {
    assert forall r :: 0 <= r < |rows| ==> (rows + [row])[r] == rows[r];
  }

  /** The rows laid end to end, in the order the loops visit them. */
  function Flatten(rows: seq<seq<(int, int)>>): seq<(int, int)>
  {
    if rows == [] then [] else Flatten(rows[..|rows| - 1]) + rows[|rows| - 1]
  }

  /**
   * The first `|rows|` rows of the pass visit every pair `a < b` with
   * `a < |rows|` and no other, in strictly increasing lexicographic order,
   * so no pair twice; a full pass (`|rows| == n`) visits every unordered
   * pair of orbiters exactly once.
   */
  lemma {:induction false} PassVisitsEachPairOnce(rows: seq<seq<(int, int)>>, n: nat)
    requires RowsOfPass(rows, n)
    ensures forall a, b :: (a, b) in Flatten(rows) <==> 0 <= a < b < n && a < |rows|
    ensures forall p, q :: 0 <= p < q < |Flatten(rows)| ==> LexLess(Flatten(rows)[p], Flatten(rows)[q])
    ensures forall p :: 0 <= p < |Flatten(rows)| ==> Flatten(rows)[p].0 < |rows|
  {
    if rows != [] {
      var i := |rows| - 1;
      PassVisitsEachPairOnce(rows[..i], n);
      var front, row := Flatten(rows[..i]), rows[i];
      assert Flatten(rows) == front + row;
      assert row == RowPairs(i, n);
      forall a, b
        ensures (a, b) in front + row <==> 0 <= a < b < n && a < |rows|
      {
        if 0 <= a < b < n && a == i {
          assert row[b - i - 1] == (a, b);
        }
      }
    }
  }

  // ---------------------------------------------------------------------
  // The body
  // ---------------------------------------------------------------------

  class CelestialObject {
    var r: Vec3
    var rPrev: Vec3
    const v: Vec3
    var a: Vec3
    var totalAcceleration: Vec3
    const m: real

    /** The physical part of the constructor: `_r_prev` starts equal to `_r`. */
    constructor (r0: Vec3, v0: Vec3, mass: real)
      ensures r == r0 && rPrev == r0 && v == v0 && m == mass
      ensures a == Zero && totalAcceleration == Zero
    {
      r, rPrev, v := r0, r0, v0;
      a, totalAcceleration := Zero, Zero;
      m := mass;
    }

    /** One Verlet step with the accumulated acceleration; history shifts by one. */
    method Integrate()
      modifies this
      ensures r == VerletNext(old(r), old(rPrev), old(totalAcceleration), Dt)
      ensures rPrev == old(r) && a == old(totalAcceleration)
      ensures totalAcceleration == old(totalAcceleration)
    {
      var rx := 2.0 * r.x - rPrev.x + Dt * Dt * totalAcceleration.x;
      var ry := 2.0 * r.y - rPrev.y + Dt * Dt * totalAcceleration.y;
      var rz := 2.0 * r.z - rPrev.z + Dt * Dt * totalAcceleration.z;
      rPrev := r;
      r := Vec3(rx, ry, rz);
      a := totalAcceleration;
    }

    /** The acceleration `orbiter` gives this body; nothing is written. */
    function ComputeAccelerationFrom(orbiter: CelestialObject): (acc: Vec3)
      reads this, orbiter
      requires orbiter.r != r
      ensures acc == Pull(r, orbiter.r, orbiter.m)
    {
      var orbiterPos := orbiter.GetPos();
      var dx := orbiterPos.x - r.x;
      var dy := orbiterPos.y - r.y;
      var dz := orbiterPos.z - r.z;
      var d := Sub(orbiterPos, r);
      SubNonZero(orbiterPos, r);
      assert dx * dx + dy * dy + dz * dz == NormSquared(d);
      NormCubedPositive(d);
      var norm := Sqrt(dx * dx + dy * dy + dz * dz);
      var inv := 1.0 / (norm * norm * norm);
      assert inv == InverseCube(d);
      var mass := orbiter.GetMass();
      var magnitude := G * mass * inv;
      assert magnitude == Strength(d, mass);
      Vec3(magnitude * dx, magnitude * dy, magnitude * dz)
    }

    method AddAcceleration(acceleration: Vec3)
      modifies this`totalAcceleration
      ensures totalAcceleration == Add(old(totalAcceleration), acceleration)
    {
      totalAcceleration := Add(totalAcceleration, acceleration);
    }

    method ResetAcceleration()
      modifies this`totalAcceleration
      ensures totalAcceleration == Zero
    {
      totalAcceleration := Zero;
    }

    /** Synthesises `_r_prev` from the position, the velocity and the accumulated acceleration. */
    method SetupVerlet()
      modifies this`rPrev
      ensures rPrev == VerletPrime(r, v, totalAcceleration, Dt)
    {
      rPrev := Vec3(r.x - v.x * Dt + 0.5 * Dt * Dt * totalAcceleration.x,
                    r.y - v.y * Dt + 0.5 * Dt * Dt * totalAcceleration.y,
                    r.z - v.z * Dt + 0.5 * Dt * Dt * totalAcceleration.z);
    }

    function GetPos(): (pos: Vec3)
      reads this
      ensures pos == r
    {
      r
    }

    function GetMass(): (mass: real)
      ensures mass == m
    {
      m
    }
  }

  // ---------------------------------------------------------------------
  // A tick of the whole system, as a function of values
  // ---------------------------------------------------------------------

  datatype Option<T> = None | Some(value: T)

  /**
   * What a tick reads and writes of the bodies' positions: the centre's
   * position and previous position, then those of the orbiters, in order.
   */
  datatype Snapshot = Snapshot(center: Vec3, centerPrev: Vec3, rs: seq<Vec3>, prevs: seq<Vec3>)

  /** Every pull of a tick is defined: no orbiter sits on the centre or on another orbiter. */
  predicate TickDefined(s: Snapshot, ms: seq<real>) {
    |s.prevs| == |s.rs| && |ms| == |s.rs| && AllApart(s.rs) &&
    forall k :: 0 <= k < |s.rs| ==> s.rs[k] != s.center
  }

  /** The net pull on every orbiter of `s`, in order. */
  function NetPulls(s: Snapshot, centerMass: real, ms: seq<real>): (acc: seq<Vec3>)
    requires TickDefined(s, ms)
    ensures |acc| == |s.rs|
    ensures forall k :: 0 <= k < |s.rs| ==> acc[k] == NetPull(s.center, centerMass, s.rs, ms, k)
  {
    seq(|s.rs|, k requires 0 <= k < |s.rs| => NetPull(s.center, centerMass, s.rs, ms, k))
  }

  /** Every position of `rs` after one Verlet step with the matching previous position and acceleration. */
  function Moved(rs: seq<Vec3>, prevs: seq<Vec3>, accs: seq<Vec3>): (next: seq<Vec3>)
    requires |prevs| == |rs| && |accs| == |rs|
    ensures |next| == |rs|
    ensures forall k :: 0 <= k < |rs| ==> next[k] == VerletNext(rs[k], prevs[k], accs[k], Dt)
  {
    seq(|rs|, k requires 0 <= k < |rs| => VerletNext(rs[k], prevs[k], accs[k], Dt))
  }

  /**
   * The integration half of a tick: every orbiter takes a Verlet step with
   * its accumulated acceleration, and so does the centre unless it is fixed.
   */
  function Integrated(s: Snapshot, centerAcc: Vec3, accs: seq<Vec3>, fixed: bool): (t: Snapshot)
    requires |s.prevs| == |s.rs| && |accs| == |s.rs|
    ensures |t.rs| == |s.rs| && t.prevs == s.rs
    ensures forall k :: 0 <= k < |s.rs| ==> t.rs[k] == VerletNext(s.rs[k], s.prevs[k], accs[k], Dt)
    ensures fixed ==> t.center == s.center && t.centerPrev == s.centerPrev
    ensures !fixed ==> t.center == VerletNext(s.center, s.centerPrev, centerAcc, Dt) && t.centerPrev == s.center
  {
    Snapshot(if fixed then s.center else VerletNext(s.center, s.centerPrev, centerAcc, Dt),
             if fixed then s.centerPrev else s.center,
             Moved(s.rs, s.prevs, accs),
             s.rs)
  }

  /**
   * One `step`: every orbiter takes a Verlet step under its net pull at the
   * positions before the tick. The centre's accumulator is reset and never
   * added to, so an unfixed centre takes a Verlet step with no
   * acceleration; a fixed one stays where it is.
   */
  function Tick(s: Snapshot, centerMass: real, ms: seq<real>, fixed: bool): Snapshot
    requires TickDefined(s, ms)
  {
    Integrated(s, Zero, NetPulls(s, centerMass, ms), fixed)
  }

  /**
   * What a tick does, body by body: each orbiter's new position is a Verlet
   * step under its net pull and its old position becomes its previous one;
   * the centre stays put when fixed and otherwise steps with no acceleration.
   */
  lemma TickMoves(s: Snapshot, centerMass: real, ms: seq<real>, fixed: bool)
    requires TickDefined(s, ms)
    ensures |Tick(s, centerMass, ms, fixed).rs| == |s.rs| && Tick(s, centerMass, ms, fixed).prevs == s.rs
    ensures forall k :: 0 <= k < |s.rs| ==>
      Tick(s, centerMass, ms, fixed).rs[k] == VerletNext(s.rs[k], s.prevs[k], NetPull(s.center, centerMass, s.rs, ms, k), Dt)
    ensures fixed ==> Tick(s, centerMass, ms, fixed).center == s.center
    ensures fixed ==> Tick(s, centerMass, ms, fixed).centerPrev == s.centerPrev
    ensures !fixed ==> Tick(s, centerMass, ms, fixed).center == VerletNext(s.center, s.centerPrev, Zero, Dt)
    ensures !fixed ==> Tick(s, centerMass, ms, fixed).centerPrev == s.center
  {
    var t := Tick(s, centerMass, ms, fixed);
    var accs := NetPulls(s, centerMass, ms);
    assert forall k :: 0 <= k < |s.rs| ==> t.rs[k] == VerletNext(s.rs[k], s.prevs[k], accs[k], Dt);
  }

  /**
   * A tick is the force pass followed by the integration: integrating with a
   * cleared centre and each orbiter holding its net pull is one tick.
   */
  lemma TickIsPassThenIntegrate(s: Snapshot, centerMass: real, ms: seq<real>, fixed: bool,
                                centerAcc: Vec3, accs: seq<Vec3>)
    requires TickDefined(s, ms)
    requires centerAcc == Zero && accs == NetPulls(s, centerMass, ms)
    ensures Tick(s, centerMass, ms, fixed) == Integrated(s, centerAcc, accs, fixed)
  {
  }

  /** `n` ticks from `s`, or `None` when one of them would divide by zero. */
  function Ticks(s: Snapshot, centerMass: real, ms: seq<real>, fixed: bool, n: nat): Option<Snapshot>
    decreases n
  {
    if n == 0 then Some(s)
    else
      match Ticks(s, centerMass, ms, fixed, n - 1)
      case None => None
      case Some(t) => if TickDefined(t, ms) then Some(Tick(t, centerMass, ms, fixed)) else None
  }

  /** However many ticks run, a fixed centre never moves. */
  lemma {:induction false} FixedCenterStays(s: Snapshot, centerMass: real, ms: seq<real>, n: nat)
    requires Ticks(s, centerMass, ms, true, n).Some?
    ensures Ticks(s, centerMass, ms, true, n).value.center == s.center
    ensures Ticks(s, centerMass, ms, true, n).value.centerPrev == s.centerPrev
    decreases n
  {
    if n > 0 {
      FixedCenterStays(s, centerMass, ms, n - 1);
    }
  }

  /**
   * However many ticks run, a centre at rest stays at rest: fixed or not, its
   * accumulator is cleared every tick, so a Verlet step moves it nowhere.
   */
  lemma {:induction false} RestingCenterStays(s: Snapshot, centerMass: real, ms: seq<real>, fixed: bool, n: nat)
    requires Ticks(s, centerMass, ms, fixed, n).Some? && s.centerPrev == s.center
    ensures Ticks(s, centerMass, ms, fixed, n).value.center == s.center
    ensures Ticks(s, centerMass, ms, fixed, n).value.centerPrev == s.center
    decreases n
  {
    if n > 0 {
      RestingCenterStays(s, centerMass, ms, fixed, n - 1);
      AtRestStaysAtRest(s.center, Dt);
    }
  }

  // ---------------------------------------------------------------------
  // The system
  // ---------------------------------------------------------------------

  /** The positions of a list of bodies, in order. */
  ghost function PositionsOf(bodies: seq<CelestialObject>): (ps: seq<Vec3>)
    reads bodies`r
    ensures |ps| == |bodies|
    ensures forall k :: 0 <= k < |bodies| ==> ps[k] == bodies[k].r
  {
    if bodies == [] then [] else PositionsOf(bodies[..|bodies| - 1]) + [bodies[|bodies| - 1].r]
  }

  /** The previous positions of a list of bodies, in order. */
  ghost function PreviousPositionsOf(bodies: seq<CelestialObject>): (ps: seq<Vec3>)
    reads bodies`rPrev
    ensures |ps| == |bodies|
    ensures forall k :: 0 <= k < |bodies| ==> ps[k] == bodies[k].rPrev
  {
    if bodies == [] then [] else PreviousPositionsOf(bodies[..|bodies| - 1]) + [bodies[|bodies| - 1].rPrev]
  }

  /** The masses of a list of bodies, in order; masses never change, so no state is read. */
  ghost function MassesOf(bodies: seq<CelestialObject>): (ms: seq<real>)
    ensures |ms| == |bodies|
    ensures forall k :: 0 <= k < |bodies| ==> ms[k] == bodies[k].m
  {
    seq(|bodies|, k requires 0 <= k < |bodies| => bodies[k].m)
  }

  /** The accumulated accelerations of a list of bodies, in order. */
  ghost function AccelerationsOf(bodies: seq<CelestialObject>): (acc: seq<Vec3>)
    reads bodies`totalAcceleration
    ensures |acc| == |bodies|
    ensures forall k :: 0 <= k < |bodies| ==> acc[k] == bodies[k].totalAcceleration
  {
    if bodies == [] then [] else AccelerationsOf(bodies[..|bodies| - 1]) + [bodies[|bodies| - 1].totalAcceleration]
  }

  /** The accelerations the last integration used, of a list of bodies, in order. */
  ghost function AppliedOf(bodies: seq<CelestialObject>): (acc: seq<Vec3>)
    reads bodies`a
    ensures |acc| == |bodies|
    ensures forall k :: 0 <= k < |bodies| ==> acc[k] == bodies[k].a
  {
    if bodies == [] then [] else AppliedOf(bodies[..|bodies| - 1]) + [bodies[|bodies| - 1].a]
  }

  /** A system whose bodies kept their positions and previous positions has the same snapshot. */
  twostate lemma SnapshotKept(sys: OrbitalSystem)
    requires unchanged(sys) && sys.center.r == old(sys.center.r) && sys.center.rPrev == old(sys.center.rPrev)
    requires forall k :: 0 <= k < |sys.orbiters| ==>
      sys.orbiters[k].r == old(sys.orbiters[k].r) && sys.orbiters[k].rPrev == old(sys.orbiters[k].rPrev)
    ensures sys.Snap() == old(sys.Snap())
  {
    assert PositionsOf(sys.orbiters) == old(PositionsOf(sys.orbiters));
    assert PreviousPositionsOf(sys.orbiters) == old(PreviousPositionsOf(sys.orbiters));
  }

  class OrbitalSystem {
    var center: CelestialObject
    var orbiters: seq<CelestialObject>
    /** Filled by AddSubsystem and never traversed by the passes below. */
    var subsystems: seq<OrbitalSystem>
    var centerIsFixed: bool

    /** The orbiters are distinct bodies and none of them is the centre (the source does not check this). */
    ghost predicate Valid()
      reads this
    {
      center !in orbiters &&
      forall p, q :: 0 <= p < |orbiters| && 0 <= q < |orbiters| && p != q ==> orbiters[p] != orbiters[q]
    }

    /** The bodies a tick may write. */
    ghost function Movers(): set<object>
      reads this
    {
      {center} + set o | o in orbiters
    }

    /** No two bodies of the system coincide, so every pull of a tick is defined. */
    predicate Separated()
      reads this, center`r, orbiters`r
    {
      (forall k :: 0 <= k < |orbiters| ==> orbiters[k].r != center.r) &&
      (forall p, q :: 0 <= p < |orbiters| && 0 <= q < |orbiters| && p != q ==> orbiters[p].r != orbiters[q].r)
    }

    /** The centre has not moved over the last tick, so with no acceleration it stays put. */
    predicate CenterAtRest()
      reads this, center
    {
      center.r == center.rPrev
    }

    ghost function Positions(): seq<Vec3>
      reads this, orbiters`r
    {
      PositionsOf(orbiters)
    }

    /** The positions a tick reads and writes, as one value. */
    ghost function Snap(): Snapshot
      reads this, center`r, center`rPrev, orbiters`r, orbiters`rPrev
    {
      Snapshot(center.r, center.rPrev, PositionsOf(orbiters), PreviousPositionsOf(orbiters))
    }

    ghost function Masses(): (ms: seq<real>)
      reads this
      ensures |ms| == |orbiters|
      ensures forall k :: 0 <= k < |orbiters| ==> ms[k] == orbiters[k].m
    {
      MassesOf(orbiters)
    }

    ghost function Accelerations(): seq<Vec3>
      reads this, orbiters`totalAcceleration
    {
      AccelerationsOf(orbiters)
    }

    constructor (c: CelestialObject)
      ensures center == c && orbiters == [] && subsystems == [] && !centerIsFixed
      ensures Valid()
    {
      center, orbiters, subsystems, centerIsFixed := c, [], [], false;
    }

    method AddOrbiters(orbiter: CelestialObject)
      requires Valid() && orbiter != center && orbiter !in orbiters
      modifies this
      ensures Valid()
      ensures orbiters == old(orbiters) + [orbiter]
      ensures center == old(center) && subsystems == old(subsystems) && centerIsFixed == old(centerIsFixed)
    {
      orbiters := orbiters + [orbiter];
    }

    method AddSubsystem(subsystem: OrbitalSystem)
      modifies this
      ensures subsystems == old(subsystems) + [subsystem]
      ensures center == old(center) && orbiters == old(orbiters) && centerIsFixed == old(centerIsFixed)
    {
      subsystems := subsystems + [subsystem];
    }

    method FixCenter(fixed: bool)
      modifies this
      ensures centerIsFixed == fixed
      ensures center == old(center) && orbiters == old(orbiters) && subsystems == old(subsystems)
    {
      centerIsFixed := fixed;
    }

    /** The body of the priming loop, for one orbiter. */
    method PrimeOrbiter(orbiter: CelestialObject)
      requires orbiter != center && orbiter.r != center.r
      modifies orbiter`totalAcceleration, orbiter`rPrev
      ensures orbiter.totalAcceleration == Pull(orbiter.r, center.r, center.m)
      ensures orbiter.rPrev == VerletPrime(orbiter.r, orbiter.v, orbiter.totalAcceleration, Dt)
    {
      orbiter.ResetAcceleration();
      var accelerationCenterOrbiter := orbiter.ComputeAccelerationFrom(center);
      orbiter.AddAcceleration(accelerationCenterOrbiter);
      AddZero(accelerationCenterOrbiter);
      orbiter.SetupVerlet();
    }

    /**
     * Primes every orbiter once: its accumulated acceleration becomes the
     * centre's pull alone and its previous position is synthesised from it.
     * The centre is not touched.
     */
    method Initialize()
      requires Valid()
      requires forall k :: 0 <= k < |orbiters| ==> orbiters[k].r != center.r
      modifies orbiters`totalAcceleration, orbiters`rPrev
      ensures forall k :: 0 <= k < |orbiters| ==>
        orbiters[k].totalAcceleration == Pull(orbiters[k].r, center.r, center.m) &&
        orbiters[k].rPrev == VerletPrime(orbiters[k].r, orbiters[k].v, orbiters[k].totalAcceleration, Dt)
    {
      var n := |orbiters|;
      for i := 0 to n
        invariant forall k :: 0 <= k < i ==>
          orbiters[k].totalAcceleration == Pull(orbiters[k].r, center.r, center.m) &&
          orbiters[k].rPrev == VerletPrime(orbiters[k].r, orbiters[k].v, orbiters[k].totalAcceleration, Dt)
      {
        PrimeOrbiter(orbiters[i]);
      }
    }

    /**
     * The per-tick force pass. Afterwards the centre holds zero, every orbiter
     * holds the centre's pull plus the pull of every other orbiter, and only
     * accumulators were written. `rows[i]` records the pairs the inner loop
     * went through for `i`; laid end to end they hold every pair `i < j`
     * exactly once (PassVisitsEachPairOnce).
     */
    method ComputeAllAccelerations() returns (ghost rows: seq<seq<(int, int)>>)
      requires Valid() && Separated()
      modifies center`totalAcceleration, orbiters`totalAcceleration
      ensures center.totalAcceleration == Zero
      ensures |rows| == |orbiters| && RowsOfPass(rows, |orbiters|)
      ensures TickDefined(Snap(), Masses()) && Accelerations() == NetPulls(Snap(), center.m, Masses())
    {
      ghost var pos := Positions();
      ghost var ms := Masses();
      assert AllApart(pos);
      StartAccumulators();
      assert pos == Positions();
      ghost var starts := Accelerations();
      rows := AddPairwisePulls(pos, ms);
      assert pos == Positions() && ms == Masses();
      PassGivesNetPull(center.r, center.m, pos, ms, starts);
      assert Accelerations() == NetPulls(Snap(), center.m, ms);
    }

    /**
     * The first three steps of the force pass: the centre's accumulator and
     * every orbiter's are cleared, then every orbiter adds the centre's pull.
     */
    method StartAccumulators()
      requires Valid() && Separated()
      modifies center`totalAcceleration, orbiters`totalAcceleration
      ensures center.totalAcceleration == Zero
      ensures forall k :: 0 <= k < |orbiters| ==>
        orbiters[k].totalAcceleration == Add(Zero, Pull(orbiters[k].r, center.r, center.m))
    {
      center.ResetAcceleration();
      ResetOrbiterAccelerations();
      AddCenterPulls();
    }

    /** The first loop of the force pass: every orbiter's accumulator is cleared. */
    method ResetOrbiterAccelerations()
      requires Valid()
      modifies orbiters`totalAcceleration
      ensures forall k :: 0 <= k < |orbiters| ==> orbiters[k].totalAcceleration == Zero
    {
      var n := |orbiters|;
      for i := 0 to n
        invariant forall k :: 0 <= k < i ==> orbiters[k].totalAcceleration == Zero
      {
        orbiters[i].ResetAcceleration();
      }
    }

    /** The second loop of the force pass: every orbiter adds the centre's pull. */
    method AddCenterPulls()
      requires Valid()
      requires forall k :: 0 <= k < |orbiters| ==> orbiters[k].r != center.r
      modifies orbiters`totalAcceleration
      ensures forall k :: 0 <= k < |orbiters| ==>
        orbiters[k].totalAcceleration == Add(old(orbiters[k].totalAcceleration), Pull(orbiters[k].r, center.r, center.m))
    {
      var n := |orbiters|;
      for i := 0 to n
        invariant forall k :: 0 <= k < i ==>
          orbiters[k].totalAcceleration == Add(old(orbiters[k].totalAcceleration), Pull(orbiters[k].r, center.r, center.m))
        invariant forall k :: i <= k < n ==> orbiters[k].totalAcceleration == old(orbiters[k].totalAcceleration)
      {
        AddCenterPull(orbiters[i]);
      }
    }

    /** The body of the second loop, for one orbiter. */
    method AddCenterPull(orbiter: CelestialObject)
      requires orbiter.r != center.r
      modifies orbiter`totalAcceleration
      ensures orbiter.totalAcceleration == Add(old(orbiter.totalAcceleration), Pull(orbiter.r, center.r, center.m))
    {
      var accelerationCenterOrbiter := orbiter.ComputeAccelerationFrom(center);
      orbiter.AddAcceleration(accelerationCenterOrbiter);
    }

    /**
     * The nested loop of the force pass: for every pair `i < j`, in
     * lexicographic order, orbiter `i` adds the pull of `j` and `j` the pull
     * of `i`. Each orbiter ends with its starting value plus the pulls of all
     * the others, taken in index order.
     */
    method AddPairwisePulls(ghost pos: seq<Vec3>, ghost ms: seq<real>) returns (ghost rows: seq<seq<(int, int)>>)
      requires Valid() && pos == Positions() && ms == Masses() && AllApart(pos)
      modifies orbiters`totalAcceleration
      ensures forall k :: 0 <= k < |orbiters| ==>
        orbiters[k].totalAcceleration == AfterRows(old(Accelerations()), pos, ms, |pos|, k)
      ensures |rows| == |orbiters| && RowsOfPass(rows, |orbiters|)
    {
      var n := |orbiters|;
      ghost var starts := Accelerations();
      rows := [];
      for i := 0 to n
        invariant forall k :: 0 <= k < n ==> orbiters[k].totalAcceleration == AfterRows(starts, pos, ms, i, k)
        invariant |rows| == i && RowsOfPass(rows, n)
      {
        ghost var before := Accelerations();
        RowComplete(before, starts, pos, ms, i);
        ghost var row := AddRowPulls(i, pos, ms);
        RowsOfPassNext(rows, n, row);
        rows := rows + [row];
      }
    }

    /**
     * One pass of the outer pairwise loop: orbiter `i` and every later
     * orbiter `j` exchange pulls, in increasing `j`.
     */
    method AddRowPulls(i: nat, ghost pos: seq<Vec3>, ghost ms: seq<real>) returns (ghost row: seq<(int, int)>)
      requires Valid() && pos == Positions() && ms == Masses() && AllApart(pos) && i < |orbiters|
      modifies orbiters`totalAcceleration
      ensures forall k :: 0 <= k < |orbiters| ==>
        orbiters[k].totalAcceleration == MidRow(old(Accelerations()), pos, ms, i, |pos|, k)
      ensures row == RowPairs(i, |orbiters|)
    {
      var n := |orbiters|;
      ghost var before := Accelerations();
      row := [];
      for j := i + 1 to n
        invariant forall k :: 0 <= k < n ==> orbiters[k].totalAcceleration == MidRow(before, pos, ms, i, j, k)
        invariant row == RowPairs(i, j)
      {
        ExchangePulls(orbiters[i], orbiters[j], i, j, before, pos, ms);
        RowPairsNext(i, j);
        row := row + [(i, j)];
      }
    }

    /** One turn of the inner pairwise loop, which moves row `i` on past orbiter `j`. */
    method ExchangePulls(bi: CelestialObject, bj: CelestialObject, i: nat, j: nat,
                         ghost before: seq<Vec3>, ghost pos: seq<Vec3>, ghost ms: seq<real>)
      requires Valid() && pos == Positions() && ms == Masses() && AllApart(pos) && i < j < |orbiters|
      requires bi == orbiters[i] && bj == orbiters[j] && |before| == |pos|
      requires forall k :: 0 <= k < |orbiters| ==> orbiters[k].totalAcceleration == MidRow(before, pos, ms, i, j, k)
      modifies bi`totalAcceleration, bj`totalAcceleration
      ensures forall k :: 0 <= k < |orbiters| ==> orbiters[k].totalAcceleration == MidRow(before, pos, ms, i, j + 1, k)
    {
      AddPairAccelerations(bi, bj);
      PairExchange(before, pos, ms, i, j);
    }

    /** The body of the pairwise loop: each of the two bodies takes the other's pull. */
    method AddPairAccelerations(bi: CelestialObject, bj: CelestialObject)
      requires bi != bj && bi.r != bj.r
      modifies bi`totalAcceleration, bj`totalAcceleration
      ensures bi.totalAcceleration == Add(old(bi.totalAcceleration), Pull(bi.r, bj.r, bj.m))
      ensures bj.totalAcceleration == Add(old(bj.totalAcceleration), Pull(bj.r, bi.r, bi.m))
    {
      var accelerationJI := bi.ComputeAccelerationFrom(bj);
      bi.AddAcceleration(accelerationJI);
      var accelerationIJ := bj.ComputeAccelerationFrom(bi);
      bj.AddAcceleration(accelerationIJ);
    }

    /**
     * Integrates the centre unless it is fixed, then every orbiter once.
     */
    method Integrate()
      requires Valid()
      modifies Movers()
      ensures centerIsFixed ==> unchanged(center)
      ensures !centerIsFixed ==>
        center.a == old(center.totalAcceleration) && center.totalAcceleration == old(center.totalAcceleration)
      ensures Snap() == Integrated(old(Snap()), old(center.totalAcceleration), old(Accelerations()), centerIsFixed)
      ensures AppliedOf(orbiters) == old(Accelerations()) && Accelerations() == old(Accelerations())
    {
      ghost var before := Snap();
      ghost var accs := Accelerations();
      assert this !in Movers();
      if !centerIsFixed {
        center.Integrate();
      }
      assert PositionsOf(orbiters) == before.rs && PreviousPositionsOf(orbiters) == before.prevs;
      assert AccelerationsOf(orbiters) == accs;
      IntegrateOrbiters();
      assert Snap().rs == Moved(before.rs, before.prevs, accs);
    }

    /** The orbiter loop of the integration: every orbiter takes one Verlet step. */
    method IntegrateOrbiters()
      requires Valid()
      modifies set o | o in orbiters
      ensures PositionsOf(orbiters) ==
        Moved(old(PositionsOf(orbiters)), old(PreviousPositionsOf(orbiters)), old(AccelerationsOf(orbiters)))
      ensures PreviousPositionsOf(orbiters) == old(PositionsOf(orbiters))
      ensures AppliedOf(orbiters) == old(AccelerationsOf(orbiters))
      ensures AccelerationsOf(orbiters) == old(AccelerationsOf(orbiters))
    {
      ghost var ps := PositionsOf(orbiters);
      ghost var pps := PreviousPositionsOf(orbiters);
      ghost var accs := AccelerationsOf(orbiters);
      var n := |orbiters|;
      for i := 0 to n
        invariant forall k :: 0 <= k < i ==>
          orbiters[k].r == VerletNext(old(orbiters[k].r), old(orbiters[k].rPrev), old(orbiters[k].totalAcceleration), Dt) &&
          orbiters[k].rPrev == old(orbiters[k].r) && orbiters[k].a == old(orbiters[k].totalAcceleration) &&
          orbiters[k].totalAcceleration == old(orbiters[k].totalAcceleration)
        invariant forall k :: i <= k < n ==> unchanged(orbiters[k])
      {
        orbiters[i].Integrate();
      }
      assert PositionsOf(orbiters) == Moved(ps, pps, accs);
      assert PreviousPositionsOf(orbiters) == ps;
      assert AppliedOf(orbiters) == accs;
      assert AccelerationsOf(orbiters) == accs;
    }

    /**
     * `step`, counted against a run of ticks: if the system stands where `n`
     * ticks from `start` put it, one more `step` puts it where `n + 1` do.
     */
    method CountedStep(ghost start: Snapshot, ghost centerMass: real, ghost ms: seq<real>, ghost fixed: bool,
                       ghost n: nat)
      requires Valid() && Separated()
      requires centerMass == center.m && ms == Masses() && fixed == centerIsFixed
      requires Ticks(start, centerMass, ms, fixed, n) == Some(Snap())
      modifies Movers()
      ensures Ticks(start, centerMass, ms, fixed, n + 1) == Some(Snap())
    {
      Step();
    }

    /**
     * One tick: the force pass, then integration. The positions move exactly
     * as `Tick` says: every orbiter takes one Verlet step under its net pull
     * at the pre-tick positions, and the centre, whose accumulator is reset
     * and never added to, stays put when fixed and otherwise takes a step
     * with no acceleration. Each orbiter keeps its net pull both in its
     * accumulator and as the acceleration it last used; an unfixed centre
     * records zero as its own.
     */
    method Step()
      requires Valid() && Separated()
      modifies Movers()
      ensures TickDefined(old(Snap()), Masses())
      ensures Snap() == Tick(old(Snap()), center.m, Masses(), centerIsFixed)
      ensures Accelerations() == NetPulls(old(Snap()), center.m, Masses()) && AppliedOf(orbiters) == Accelerations()
      ensures center.totalAcceleration == Zero
      ensures center.a == if centerIsFixed then old(center.a) else Zero
    {
      ghost var before := Snap();
      ghost var ms := Masses();
      ghost var rows := ComputeAllAccelerations();
      SnapshotKept(this);
      ghost var accs := Accelerations();
      ghost var centerAcc := center.totalAcceleration;
      assert Snap() == before && Masses() == ms;
      assert TickDefined(before, ms);
      assert centerAcc == Zero && accs == NetPulls(before, center.m, ms);
      TickIsPassThenIntegrate(before, center.m, ms, centerIsFixed, centerAcc, accs);
      ghost var bodies := orbiters;
      assert this !in Movers();
      Integrate();
      assert orbiters == bodies;
      assert Snap() == Integrated(before, centerAcc, accs, centerIsFixed);
      assert AppliedOf(orbiters) == accs && Accelerations() == accs;
      assert old(Snap()) == before && Masses() == ms;
    }
  }
}
