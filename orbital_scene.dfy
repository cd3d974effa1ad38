/**
 * The simulation side of src/orbital_system.cpp: the bodies of the scene,
 * the order in which they are wired into the solar system, and the
 * fixed-step clock that calls `OrbitalSystem::step` from the render loop.
 */
module OrbitalScene {
  import opened Vectors
  import opened Gravity
  import opened FixedStep

  /** The frame-loop global `physicsAccumulator`. */
  class PhysicsClock {
    var physicsAccumulator: real

    constructor ()
      ensures physicsAccumulator == 0.0
    {
      physicsAccumulator := 0.0;
    }

    /**
     * One frame: the accumulator is charged with the frame time, then every
     * whole tick runs one `step` of the system and takes one tick out. With a
     * non-negative charge the loop runs `floor(charge / dt)` times and leaves
     * less than one tick. The bodies end where `steps` ticks from their
     * positions at the start of the frame put them. A tick with two
     * coinciding bodies divides by zero in the source; here the frame stops
     * before it and reports `singular`. A fixed centre, or one at rest, does
     * not move however many ticks run.
     */
    method RunFrame(deltaTime: real, system: OrbitalSystem) returns (steps: nat, singular: bool)
      requires system.Valid()
      modifies this`physicsAccumulator, system.Movers()
      ensures physicsAccumulator == Charged(old(physicsAccumulator), deltaTime) - steps as real * Dt
      ensures !singular ==> physicsAccumulator < Dt
      ensures singular ==> physicsAccumulator >= Dt && !system.Separated()
      ensures Charged(old(physicsAccumulator), deltaTime) >= 0.0 ==> physicsAccumulator >= 0.0
      ensures !singular && Charged(old(physicsAccumulator), deltaTime) >= 0.0 ==>
        steps == StepsFor(Charged(old(physicsAccumulator), deltaTime), Dt)
      ensures Ticks(old(system.Snap()), system.center.m, system.Masses(), system.centerIsFixed, steps)
           == Some(system.Snap())
      ensures system.centerIsFixed ==>
        system.center.r == old(system.center.r) && system.center.rPrev == old(system.center.rPrev)
      ensures old(system.CenterAtRest()) ==> system.center.r == old(system.center.r) && system.CenterAtRest()
    {
      ghost var start := system.Snap();
      assert this !in system.Movers();
      physicsAccumulator := physicsAccumulator + deltaTime * TimeMultiplier;
      assert system.Snap() == start;
      ghost var charged := physicsAccumulator;
      steps, singular := Drain(system);
      if !singular && charged >= 0.0 {
        DrainedSteps(charged, Dt, steps);
      }
      if system.centerIsFixed {
        FixedCenterStays(start, system.center.m, system.Masses(), steps);
      }
      if start.centerPrev == start.center {
        RestingCenterStays(start, system.center.m, system.Masses(), system.centerIsFixed, steps);
      }
    }

    /**
     * The loop of the frame: while a whole tick is charged, one `step` runs
     * and one tick is taken out. The bodies end where `steps` ticks from
     * where they stood put them.
     */
    method Drain(system: OrbitalSystem) returns (steps: nat, singular: bool)
      requires system.Valid()
      modifies this`physicsAccumulator, system.Movers()
      ensures physicsAccumulator == old(physicsAccumulator) - steps as real * Dt
      ensures !singular ==> physicsAccumulator < Dt
      ensures singular ==> physicsAccumulator >= Dt && !system.Separated()
      ensures old(physicsAccumulator) >= 0.0 ==> physicsAccumulator >= 0.0
      ensures Ticks(old(system.Snap()), system.center.m, system.Masses(), system.centerIsFixed, steps)
           == Some(system.Snap())
    {
      ghost var start := system.Snap();
      ghost var centerMass := system.center.m;
      ghost var ms := system.Masses();
      ghost var fixed := system.centerIsFixed;
      assert system !in system.Movers() && this !in system.Movers();
      steps, singular := 0, false;
      while physicsAccumulator >= Dt
        invariant physicsAccumulator == old(physicsAccumulator) - steps as real * Dt
        invariant old(physicsAccumulator) >= 0.0 ==> physicsAccumulator >= 0.0
        invariant Ticks(start, centerMass, ms, fixed, steps) == Some(system.Snap())
        invariant !singular
        decreases physicsAccumulator.Floor
      {
        if !system.Separated() {
          singular := true;
          break;
        }
        SpendTick(system, start, centerMass, ms, fixed, steps);
        steps := steps + 1;
      }
    }

    /** One pass of the loop of the frame: one `step`, and one tick taken out. */
    method SpendTick(system: OrbitalSystem, ghost start: Snapshot, ghost centerMass: real, ghost ms: seq<real>,
                     ghost fixed: bool, ghost n: nat)
      requires system.Valid() && system.Separated()
      requires centerMass == system.center.m && ms == system.Masses() && fixed == system.centerIsFixed
      requires Ticks(start, centerMass, ms, fixed, n) == Some(system.Snap())
      modifies this`physicsAccumulator, system.Movers()
      ensures physicsAccumulator == old(physicsAccumulator) - Dt
      ensures Ticks(start, centerMass, ms, fixed, n + 1) == Some(system.Snap())
    {
      assert this !in system.Movers();
      physicsAccumulator := physicsAccumulator - Dt;
      system.CountedStep(start, centerMass, ms, fixed, n);
    }
  }

  /** The bodies of the scene, with the start positions, velocities and masses of `main`. */
  datatype Bodies = Bodies(sun: CelestialObject, earth: CelestialObject, mars: CelestialObject,
                           venus: CelestialObject, mercury: CelestialObject, moon: CelestialObject)

  /** The start positions of `main`, in metres from the Sun. */
  const SunStart: Vec3 := Vec3(0.0, 0.0, 0.0)
  const EarthStart: Vec3 := Vec3(1.496e11, 0.0, 0.0)
  const MarsStart: Vec3 := Vec3(2.279e11, 0.0, 0.0)
  const VenusStart: Vec3 := Vec3(1.08e11, 0.0, 0.0)
  const MercuryStart: Vec3 := Vec3(5.80e10, 0.0, 0.0)
  const MoonStart: Vec3 := Vec3(1.496e11 + 3e8, 0.0, 0.0)
  const SunMassInScene: real := 2e30

  /** The start velocities of `main`, in metres per second, all along y. */
  const SunVelocity: Vec3 := Vec3(0.0, 0.0, 0.0)
  const EarthVelocity: Vec3 := Vec3(0.0, 29780.0, 0.0)
  const MarsVelocity: Vec3 := Vec3(0.0, 24080.0, 0.0)
  const VenusVelocity: Vec3 := Vec3(0.0, 35025.0, 0.0)
  const MercuryVelocity: Vec3 := Vec3(0.0, 47360.0, 0.0)
  const MoonVelocity: Vec3 := Vec3(0.0, 29780.0 + 1022.0, 0.0)

  /** The masses of `main`, in kilograms (the Sun's is `SunMassInScene`). */
  const EarthMass: real := 6e24
  const MarsMass: real := 6e24
  const VenusMass: real := 5e24
  const MercuryMass: real := 3.3e23
  const MoonMass: real := 7.35e22

  /**
   * Six new bodies, each at its start position with its start velocity and
   * mass, as `main` builds them; none has an acceleration yet.
   */
  method CreateBodies() returns (bodies: Bodies)
    ensures fresh(bodies.sun) && fresh(bodies.earth) && fresh(bodies.mars)
    ensures fresh(bodies.venus) && fresh(bodies.mercury) && fresh(bodies.moon)
    ensures bodies.sun.r == SunStart && bodies.sun.v == SunVelocity && bodies.sun.m == SunMassInScene
    ensures bodies.earth.r == EarthStart && bodies.earth.v == EarthVelocity && bodies.earth.m == EarthMass
    ensures bodies.mars.r == MarsStart && bodies.mars.v == MarsVelocity && bodies.mars.m == MarsMass
    ensures bodies.venus.r == VenusStart && bodies.venus.v == VenusVelocity && bodies.venus.m == VenusMass
    ensures bodies.mercury.r == MercuryStart && bodies.mercury.v == MercuryVelocity && bodies.mercury.m == MercuryMass
    ensures bodies.moon.r == MoonStart && bodies.moon.v == MoonVelocity && bodies.moon.m == MoonMass
    ensures bodies.sun.a == Zero && bodies.earth.a == Zero && bodies.mars.a == Zero
    ensures bodies.venus.a == Zero && bodies.mercury.a == Zero && bodies.moon.a == Zero
  {
    var sun := new CelestialObject(SunStart, SunVelocity, SunMassInScene);
    var earth := new CelestialObject(EarthStart, EarthVelocity, EarthMass);
    var mars := new CelestialObject(MarsStart, MarsVelocity, MarsMass);
    var venus := new CelestialObject(VenusStart, VenusVelocity, VenusMass);
    var mercury := new CelestialObject(MercuryStart, MercuryVelocity, MercuryMass);
    var moon := new CelestialObject(MoonStart, MoonVelocity, MoonMass);
    bodies := Bodies(sun, earth, mars, venus, mercury, moon);
  }

  /** The six bodies are six different objects. */
  predicate Distinct(b: Bodies) {
    b.sun != b.earth && b.sun != b.mars && b.sun != b.venus && b.sun != b.mercury && b.sun != b.moon &&
    b.earth != b.mars && b.earth != b.venus && b.earth != b.mercury && b.earth != b.moon &&
    b.mars != b.venus && b.mars != b.mercury && b.mars != b.moon &&
    b.venus != b.mercury && b.venus != b.moon && b.mercury != b.moon
  }

  /**
   * The wiring of `main`: the Sun is the centre and is fixed before anything
   * else; the Earth and the Moon form a subsystem; Mars, Venus and Mercury
   * are the orbiters, in that order.
   */
  method WireSolarSystem(bodies: Bodies) returns (solarSystem: OrbitalSystem, earthSystem: OrbitalSystem)
    requires Distinct(bodies)
    ensures fresh(solarSystem) && fresh(earthSystem)
    ensures solarSystem.Valid() && solarSystem.centerIsFixed
    ensures solarSystem.center == bodies.sun
    ensures solarSystem.orbiters == [bodies.mars, bodies.venus, bodies.mercury]
    ensures solarSystem.subsystems == [earthSystem]
    ensures earthSystem.center == bodies.earth && earthSystem.orbiters == [bodies.moon]
  {
    solarSystem := new OrbitalSystem(bodies.sun);
    solarSystem.FixCenter(true);
    earthSystem := new OrbitalSystem(bodies.earth);
    earthSystem.AddOrbiters(bodies.moon);
    solarSystem.AddSubsystem(earthSystem);
    solarSystem.AddOrbiters(bodies.mars);
    solarSystem.AddOrbiters(bodies.venus);
    solarSystem.AddOrbiters(bodies.mercury);
  }

  /**
   * The set-up of `main`: bodies, wiring, then priming of the orbiters by
   * the Sun. The Earth and the Moon belong only to the subsystem, which no
   * pass traverses, so no tick of the solar system writes them.
   */
  method BuildSolarSystem() returns (solarSystem: OrbitalSystem, bodies: Bodies, earthSystem: OrbitalSystem)
    ensures fresh(solarSystem) && Distinct(bodies)
    ensures fresh(bodies.sun) && fresh(bodies.mars) && fresh(bodies.venus) && fresh(bodies.mercury)
    ensures solarSystem.Valid() && solarSystem.Separated() && solarSystem.centerIsFixed
    ensures solarSystem.center == bodies.sun && bodies.sun.r == SunStart
    ensures solarSystem.orbiters == [bodies.mars, bodies.venus, bodies.mercury]
    ensures solarSystem.subsystems == [earthSystem]
    ensures earthSystem.center == bodies.earth && earthSystem.orbiters == [bodies.moon]
    ensures bodies.earth.r == EarthStart && bodies.moon.r == MoonStart
    ensures bodies.earth !in solarSystem.Movers() && bodies.moon !in solarSystem.Movers()
  {
    bodies := CreateBodies();
    solarSystem, earthSystem := WireSolarSystem(bodies);
    assert solarSystem.Separated();
    PrimeOrbiters(solarSystem);
  }

  /**
   * `initialize` on the wired system: each orbiter takes the centre's pull
   * and a primed previous position (the contract of `Initialize`), and no
   * position changes.
   */
  method PrimeOrbiters(system: OrbitalSystem)
    requires system.Valid() && system.Separated()
    modifies system.orbiters`totalAcceleration, system.orbiters`rPrev
    ensures system.Separated()
  {
    system.Initialize();
  }

  /**
   * `main` over a finite run of frames: build the scene, then one frame per
   * entry of `frameTimes`. The Sun never moves, and neither do the Earth and
   * the Moon, which are reached only through the untraversed subsystem.
   */
  method RunOrbitalSystem(frameTimes: seq<real>) returns (solarSystem: OrbitalSystem, bodies: Bodies, ticks: nat)
    ensures bodies.sun.r == SunStart
    ensures bodies.earth.r == EarthStart && bodies.moon.r == MoonStart
    ensures solarSystem.orbiters == [bodies.mars, bodies.venus, bodies.mercury]
  {
    var earthSystem;
    solarSystem, bodies, earthSystem := BuildSolarSystem();
    var clock := new PhysicsClock();
    ticks := 0;
    for f := 0 to |frameTimes|
      invariant solarSystem.Valid() && solarSystem.centerIsFixed
      invariant solarSystem.orbiters == [bodies.mars, bodies.venus, bodies.mercury]
      invariant solarSystem.center == bodies.sun && bodies.sun.r == SunStart
      invariant bodies.earth.r == EarthStart && bodies.moon.r == MoonStart
      invariant bodies.earth !in solarSystem.Movers() && bodies.moon !in solarSystem.Movers()
    {
      assert solarSystem !in solarSystem.Movers();
      var steps, singular := clock.RunFrame(frameTimes[f], solarSystem);
      ticks := ticks + steps;
    }
  }
}
