/**
 * src/two_body_simulation.cpp: the Earth around a fixed Sun at the origin,
 * kept both in file-level globals (`r`, `r_prev`, `a`, `v`, `S_pos`) updated
 * by `setup_init_condition` and `next_step`, and in `Planet` objects that the
 * frame loop steps through the fixed-step clock.
 *
 * The globals become the fields of one `Simulation` object; the frame loop
 * becomes `Simulation.RunFrame`, which owns `physicsAccumulator`.
 */
module TwoBody {
  import opened Vectors
  import opened Gravity
  import opened Planets
  import opened FixedStep

  /** The Earth's start: one astronomical unit along x, in metres. */
  const EarthStart: Vec3 := Vec3(1.496e11, 0.0, 0.0)
  /** The Earth's start velocity: 29780 m/s along y. */
  const EarthVelocity: Vec3 := Vec3(0.0, 29780.0, 0.0)
  const MarsStart: Vec3 := Vec3(2.279e11, 0.0, 0.0)
  const MarsVelocity: Vec3 := Vec3(0.0, 24080.0, 0.0)

  class Simulation {
    var sPos: Vec3
    var r: Vec3
    var v: Vec3
    var a: Vec3
    var rPrev: Vec3
    var physicsAccumulator: real

    function State(): OrbitState
      reads this
    {
      OrbitState(r, rPrev, a)
    }

    /**
     * The accumulator starts at zero. The vectors are empty until
     * `SetupInitCondition`; here they start at zero and nothing reads them
     * before it.
     */
    constructor ()
      ensures physicsAccumulator == 0.0
      ensures sPos == Zero && r == Zero && v == Zero && a == Zero && rPrev == Zero
    {
      sPos, r, v, a, rPrev := Zero, Zero, Zero, Zero, Zero;
      physicsAccumulator := 0.0;
    }

    /**
     * The Sun at the origin, the Earth one astronomical unit out with its
     * orbital speed, the Sun's pull there, and the primed previous position.
     */
    method SetupInitCondition()
      modifies this`sPos, this`r, this`v, this`a, this`rPrev
      ensures sPos == Zero && r == EarthStart && v == EarthVelocity
      ensures a == SunPull(r, SunMass) && rPrev == VerletPrime(r, v, a, Dt)
    {
      sPos := Vec3(0.0, 0.0, 0.0);
      r := Vec3(1.496e11, 0.0, 0.0);
      v := Vec3(0.0, 29780.0, 0.0);
      NormCubedPositive(r);
      assert r.x * r.x + r.y * r.y + r.z * r.z == NormSquared(r);
      var norm := Sqrt(r.x * r.x + r.y * r.y + r.z * r.z);
      var k := -G * SunMass / (norm * norm * norm);
      NegatedQuotient(G * SunMass, norm * norm * norm);
      a := Vec3(k * r.x, k * r.y, k * r.z);
      assert a == SunPull(r, SunMass);
      assert Sq(Dt) == Dt * Dt;
      rPrev := Vec3(r.x - v.x * Dt + 0.5 * (Dt * Dt) * a.x,
                    r.y - v.y * Dt + 0.5 * (Dt * Dt) * a.y,
                    r.z - v.z * Dt + 0.5 * (Dt * Dt) * a.z);
    }

    /** The same step as `Planet.ComputeStep`, on the globals. */
    method NextStep()
      requires StepDefined(State(), Dt)
      modifies this`r, this`rPrev, this`a
      ensures State() == SunStep(old(State()), Dt, SunMass)
    {
      var rx := 2.0 * r.x - rPrev.x + Dt * Dt * a.x;
      var ry := 2.0 * r.y - rPrev.y + Dt * Dt * a.y;
      var rz := 2.0 * r.z - rPrev.z + Dt * Dt * a.z;
      var rNew := Vec3(rx, ry, rz);
      assert rNew == VerletNext(r, rPrev, a, Dt);
      NormCubedPositive(rNew);
      assert rx * rx + ry * ry + rz * rz == NormSquared(rNew);
      var norm := Sqrt(rx * rx + ry * ry + rz * rz);
      var inv := 1.0 / (norm * norm * norm);
      assert inv == InverseCube(rNew);
      a := Vec3(-(G * SunMass * inv) * rx, -(G * SunMass * inv) * ry, -(G * SunMass * inv) * rz);
      assert a == InwardPull(rNew, SunMass);
      rPrev := r;
      r := rNew;
    }

    /**
     * One frame of the render loop: the accumulator is charged with the
     * frame time, then each whole tick steps the Earth and Mars once and
     * takes one tick out. With a non-negative charge the loop runs
     * `floor(charge / dt)` times and leaves less than one tick. A step that
     * would put a planet on the Sun divides by zero in the source; here the
     * frame stops before it and reports `singular`.
     */
    method RunFrame(deltaTime: real, earth: Planet, mars: Planet) returns (steps: nat, singular: bool)
      requires earth != mars
      modifies this`physicsAccumulator, earth`r, earth`rPrev, earth`a, mars`r, mars`rPrev, mars`a
      ensures physicsAccumulator == Charged(old(physicsAccumulator), deltaTime) - steps as real * Dt
      ensures Advance(old(earth.State()), earth.dt, earth.M, steps) == Some(earth.State())
      ensures Advance(old(mars.State()), mars.dt, mars.M, steps) == Some(mars.State())
      ensures !singular ==> physicsAccumulator < Dt
      ensures singular ==> physicsAccumulator >= Dt && !(earth.CanStep() && mars.CanStep())
      ensures Charged(old(physicsAccumulator), deltaTime) >= 0.0 ==> physicsAccumulator >= 0.0
      ensures !singular && Charged(old(physicsAccumulator), deltaTime) >= 0.0 ==>
        steps == StepsFor(Charged(old(physicsAccumulator), deltaTime), Dt)
    {
      physicsAccumulator := physicsAccumulator + deltaTime * TimeMultiplier;
      ghost var charged := physicsAccumulator;
      ghost var earth0 := earth.State();
      ghost var mars0 := mars.State();
      steps, singular := 0, false;
      while physicsAccumulator >= Dt
        invariant physicsAccumulator == charged - steps as real * Dt
        invariant charged >= 0.0 ==> physicsAccumulator >= 0.0
        invariant Advance(earth0, earth.dt, earth.M, steps) == Some(earth.State())
        invariant Advance(mars0, mars.dt, mars.M, steps) == Some(mars.State())
        invariant singular ==> physicsAccumulator >= Dt && !(earth.CanStep() && mars.CanStep())
        decreases physicsAccumulator.Floor
      {
        if !earth.CanStep() || !mars.CanStep() {
          singular := true;
          break;
        }
        AdvanceOneMore(earth0, earth.dt, earth.M, steps);
        AdvanceOneMore(mars0, mars.dt, mars.M, steps);
        earth.ComputeStep();
        mars.ComputeStep();
        physicsAccumulator := physicsAccumulator - Dt;
        steps := steps + 1;
      }
      if !singular && charged >= 0.0 {
        DrainedSteps(charged, Dt, steps);
      }
    }
  }

  /**
   * The start of `main`: the globals are set up, then the Earth and Mars
   * planets are built with the physics tick. The Earth planet starts in
   * exactly the state the globals were given.
   */
  method StartScene() returns (sim: Simulation, earth: Planet, mars: Planet)
    ensures earth != mars
    ensures earth.State() == sim.State() && earth.dt == Dt && earth.M == SunMass
    ensures mars.State() == Start(MarsStart, MarsVelocity, Dt, SunMass) && mars.dt == Dt && mars.M == SunMass
    ensures sim.physicsAccumulator == 0.0
  {
    sim := new Simulation();
    sim.SetupInitCondition();
    earth := new Planet(EarthStart, EarthVelocity, 0.0625, Dt);
    mars := new Planet(MarsStart, MarsVelocity, 0.0625, Dt);
  }
}
