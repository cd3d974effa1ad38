/**
 * The fixed-step clock shared by src/two_body_simulation.cpp and
 * src/orbital_system.cpp: every frame adds the frame time, sped up by
 * `TIME_MULTIPLIER`, to an accumulator, and the physics then runs whole
 * ticks of `dt` seconds while the accumulator holds at least one.
 */
module FixedStep {
  /** Simulated seconds per second of frame time. */
  const TimeMultiplier: real := 500000.0

  /** What a frame of `deltaTime` seconds leaves in the accumulator before draining. */
  function Charged(acc: real, deltaTime: real): real {
    acc + deltaTime * TimeMultiplier
  }

  lemma MultiplyMonotone(a: real, b: real, h: real)
    requires h > 0.0 && a <= b
    ensures a * h <= b * h
  {
  }

  lemma QuotientBounds(acc: real, h: real, q: real)
    requires h > 0.0 && acc >= 0.0 && q == acc / h
    ensures q >= 0.0 && q * h == acc
  {
  }

  /** The number of whole ticks of `h` seconds that `acc` seconds hold: the floor of `acc / h`. */
  function StepsFor(acc: real, h: real): nat
    requires acc >= 0.0 && h > 0.0
  {
    QuotientBounds(acc, h, acc / h);
    (acc / h).Floor
  }

  /** `StepsFor(acc, h)` ticks fit in `acc`, one more does not. */
  lemma StepsForBounds(acc: real, h: real)
    requires acc >= 0.0 && h > 0.0
    ensures StepsFor(acc, h) as real * h <= acc
    ensures acc < (StepsFor(acc, h) + 1) as real * h
  {
    var q := acc / h;
    QuotientBounds(acc, h, q);
    var n := StepsFor(acc, h);
    MultiplyMonotone(n as real, q, h);
    assert q < (n + 1) as real;
    StrictlyMonotone(q, (n + 1) as real, h);
    assert acc < (n + 1) as real * h;
  }

  lemma OneMoreTick(k: nat, h: real)
    ensures (k + 1) as real * h == k as real * h + h
  {
  }

  lemma StrictlyMonotone(a: real, b: real, h: real)
    requires h > 0.0 && a < b
    ensures a * h < b * h
  {
  }

  /**
   * A drain that took `steps` ticks out of `acc` and stopped with less than
   * one tick left, without going below zero, took exactly `StepsFor(acc, h)`
   * ticks: the floor of `acc / h`.
   */
  lemma DrainedSteps(acc: real, h: real, steps: nat)
    requires acc >= 0.0 && h > 0.0
    requires 0.0 <= acc - steps as real * h < h
    ensures steps == StepsFor(acc, h)
  {
    var q := acc / h;
    QuotientBounds(acc, h, q);
    OneMoreTick(steps, h);
    CancelFactor(steps as real, q, h);
    CancelFactorStrictly(q, (steps + 1) as real, h);
    assert steps as real <= q < (steps + 1) as real;
  }

  lemma CancelFactor(a: real, b: real, h: real)
    requires h > 0.0 && a * h <= b * h
    ensures a <= b
  {
  }

  lemma CancelFactorStrictly(a: real, b: real, h: real)
    requires h > 0.0 && a * h < b * h
    ensures a < b
  {
  }
}
