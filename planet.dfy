/**
 * The single-attractor integrator of include/planet.hpp: a `Planet` runs the
 * same position-Verlet recurrence as `CelestialObject`, but against a Sun of
 * fixed mass `_M` held at the origin, and it recomputes its acceleration from
 * the new position inside the step instead of collecting it from a force pass.
 *
 * The state the step carries is `(r, rPrev, a)`; `SunStep` is that step as a
 * function of values, and both `Planet.ComputeStep` and the globals of
 * src/two_body_simulation.cpp are specified against it.
 */
module Planets {
  import opened Vectors
  import opened Gravity

  /** The Sun's mass `_M` (and `m_S` in src/two_body_simulation.cpp), in kg. */
  const SunMass: real := 1.989e30

  /** What a Verlet step carries from one tick to the next. */
  datatype OrbitState = OrbitState(r: Vec3, rPrev: Vec3, a: Vec3)

  /**
   * The step's acceleration formula: `-(G M inv) r` with `inv = 1 / |r|^3`
   * precomputed. The constructor writes the same law as `-G M / |r|^3 * r`
   * (SunPull); InwardPullIsSunPull shows the two agree.
   */
  function InwardPull(r: Vec3, mass: real): Vec3
    requires r != Zero
  {
    Scale(-(G * mass * InverseCube(r)), r)
  }

  /**
   * Both ways the planet code writes the Sun's pull are the general law of
   * `CelestialObject::compute_acceleration_from` with the attractor at the
   * origin, and so a non-positive multiple of `r`: they point at the Sun.
   */
  lemma InwardPullIsSunPull(r: Vec3, mass: real)
    requires r != Zero
    ensures InwardPull(r, mass) == SunPull(r, mass)
    ensures InwardPull(r, mass) == Pull(r, Zero, mass)
    ensures InwardPull(r, mass) == Scale(-Strength(Sub(Zero, r), mass), r)
  {
    SunPullIsPull(r, mass);
    InverseCubeOfReversed(r, Zero);
    assert Sub(r, Zero) == r;
  }

  /** The new position is away from the Sun, so the pull on it is defined. */
  predicate StepDefined(s: OrbitState, h: real) {
    VerletNext(s.r, s.rPrev, s.a, h) != Zero
  }

  /**
   * One `compute_step`: the new position from the old acceleration, then the
   * acceleration at the new position, then the history shift.
   */
  function SunStep(s: OrbitState, h: real, mass: real): OrbitState
    requires StepDefined(s, h)
  {
    var rNew := VerletNext(s.r, s.rPrev, s.a, h);
    OrbitState(rNew, s.r, InwardPull(rNew, mass))
  }

  /**
   * The state `setup_init_condition` builds from a start position and
   * velocity: the Sun's pull at `r0` and the primed previous position.
   */
  function Start(r0: Vec3, v0: Vec3, h: real, mass: real): OrbitState
    requires r0 != Zero
  {
    var a := SunPull(r0, mass);
    OrbitState(r0, VerletPrime(r0, v0, a, h), a)
  }

  /**
   * `n` steps from `s`, or `None` when one of them would land on the Sun.
   * Steps are peeled off the front; AdvanceOneMore adds one at the back,
   * as a loop does.
   */
  function Advance(s: OrbitState, h: real, mass: real, n: nat): Option<OrbitState>
    decreases n
  {
    if n == 0 then Some(s)
    else if !StepDefined(s, h) then None
    else Advance(SunStep(s, h, mass), h, mass, n - 1)
  }

  /** One more step after `n` steps is `n + 1` steps. */
  lemma {:induction false} AdvanceOneMore(s: OrbitState, h: real, mass: real, n: nat)
    requires Advance(s, h, mass, n).Some? && StepDefined(Advance(s, h, mass, n).value, h)
    ensures Advance(s, h, mass, n + 1) == Some(SunStep(Advance(s, h, mass, n).value, h, mass))
    decreases n
  {
    if n > 0 {
      AdvanceOneMore(SunStep(s, h, mass), h, mass, n - 1);
    }
  }

  /**
   * After every step the acceleration is the Sun's pull at the new position,
   * directed at the origin, and the previous position is the old position.
   */
  lemma SunStepFollowsLaw(s: OrbitState, h: real, mass: real)
    requires StepDefined(s, h)
    ensures SunStep(s, h, mass).rPrev == s.r
    ensures SunStep(s, h, mass).a == SunPull(SunStep(s, h, mass).r, mass)
    ensures SunStep(s, h, mass).a == Pull(SunStep(s, h, mass).r, Zero, mass)
  {
    InwardPullIsSunPull(VerletNext(s.r, s.rPrev, s.a, h), mass);
  }

  /**
   * Priming makes the first step the forward Taylor step: the planet leaves
   * `r0` with velocity `v0` under the Sun's pull at `r0`.
   */
  lemma FirstStepFromStart(r0: Vec3, v0: Vec3, h: real, mass: real)
    requires r0 != Zero && StepDefined(Start(r0, v0, h, mass), h)
    ensures SunStep(Start(r0, v0, h, mass), h, mass).r
         == Vec3(r0.x + v0.x * h + 0.5 * Sq(h) * SunPull(r0, mass).x,
                 r0.y + v0.y * h + 0.5 * Sq(h) * SunPull(r0, mass).y,
                 r0.z + v0.z * h + 0.5 * Sq(h) * SunPull(r0, mass).z)
  {
    PrimedFirstStep(r0, v0, SunPull(r0, mass), h);
  }

  /**
   * The older single-attractor model agrees with the orbital system: a lone
   * orbiter of a centre at the origin feels exactly the planet's Sun pull.
   */
  lemma LoneOrbiterFeelsSunPull(r: Vec3, m: real, mass: real)
    requires r != Zero
    ensures NetPull(Zero, mass, [r], [m], 0) == SunPull(r, mass)
  {
    SunPullIsPull(r, mass);
    var ps := PullsOn([r], [m], 0);
    assert Total(ps, 1) == Add(Zero, ps[0]);
    AddZero(Zero);
    AddZero(Pull(r, Zero, mass));
  }

  lemma NegatedQuotient(x: real, q: real)
    requires q > 0.0
    ensures -x / q == -(x / q)
  {
  }

  class Planet {
    var r: Vec3
    var rPrev: Vec3
    var a: Vec3
    const v: Vec3
    const radius: real
    const dt: real
    /** `_M`: every planet is pulled by the same fixed Sun. */
    const M: real

    function State(): OrbitState
      reads this
    {
      OrbitState(r, rPrev, a)
    }

    /** The next step lands away from the Sun, which `compute_step` divides by. */
    predicate CanStep()
      reads this
    {
      StepDefined(State(), dt)
    }

    /**
     * Stores the position, velocity, radius and tick, then primes the
     * integrator. A planet at the origin would divide by zero.
     */
    constructor (r0: Vec3, v0: Vec3, radius: real, dt: real)
      requires r0 != Zero
      ensures State() == Start(r0, v0, dt, SunMass)
      ensures v == v0 && this.radius == radius && this.dt == dt && M == SunMass
    {
      r, v, this.radius, this.dt := r0, v0, radius, dt;
      M := SunMass;
      new;
      SetupInitCondition();
    }

    function GetPos(): (pos: Vec3)
      reads this
      ensures pos == State().r
    {
      r
    }

    /** The Sun's pull at the current position, then the primed previous position. */
    method SetupInitCondition()
      requires r != Zero
      modifies this`a, this`rPrev
      ensures a == SunPull(r, M)
      ensures rPrev == VerletPrime(r, v, a, dt)
    {
      NormCubedPositive(r);
      assert r.x * r.x + r.y * r.y + r.z * r.z == NormSquared(r);
      var norm := Sqrt(r.x * r.x + r.y * r.y + r.z * r.z);
      var k := -G * M / (norm * norm * norm);
      NegatedQuotient(G * M, norm * norm * norm);
      a := Vec3(k * r.x, k * r.y, k * r.z);
      assert a == SunPull(r, M);
      assert Sq(dt) == dt * dt;
      rPrev := Vec3(r.x - v.x * dt + 0.5 * (dt * dt) * a.x,
                    r.y - v.y * dt + 0.5 * (dt * dt) * a.y,
                    r.z - v.z * dt + 0.5 * (dt * dt) * a.z);
    }

    /** One Verlet step; the acceleration for the next one is taken at the new position. */
    method ComputeStep()
      requires CanStep()
      modifies this`r, this`rPrev, this`a
      ensures State() == SunStep(old(State()), dt, M)
    {
      var rx := 2.0 * r.x - rPrev.x + dt * dt * a.x;
      var ry := 2.0 * r.y - rPrev.y + dt * dt * a.y;
      var rz := 2.0 * r.z - rPrev.z + dt * dt * a.z;
      var rNew := Vec3(rx, ry, rz);
      assert rNew == VerletNext(r, rPrev, a, dt);
      NormCubedPositive(rNew);
      assert rx * rx + ry * ry + rz * rz == NormSquared(rNew);
      var norm := Sqrt(rx * rx + ry * ry + rz * rz);
      var inv := 1.0 / (norm * norm * norm);
      assert inv == InverseCube(rNew);
      a := Vec3(-(G * M * inv) * rx, -(G * M * inv) * ry, -(G * M * inv) * rz);
      assert a == InwardPull(rNew, M);
      rPrev := r;
      r := rNew;
    }
  }
}
