// The waterfall example (example/code/waterfall.cpp): a pool of 10000 particles fed at a
// rate of `particles_per_second`. The frame adds `rate * dt` to a fractional accumulator
// and spawns one particle per whole unit into the dead slots, then runs
// `particle_simulate` under gravity (0, -2) and lowers each alpha to the particle's life.

module Waterfalls {
  import opened Vectors
  import opened MathLib
  import opened Sampling
  import opened Particles
  import opened ParticleSystems

  const PoolSize: nat := 10000

  /** The waterfall's `physics`: gravity (0, -2, 0) and no friction. */
  const WaterPhysics := PhysicsParams(Vec3(0.0, -2.0, 0.0), 1.0)

  /** The offset added to every spawned position: `{-0.5, +0.3}`, z left at 0. */
  const Nozzle := Vec3(-0.5, 0.3, 0.0)

  function UniformRange(min: real, max: real): RandomScalar
  {
    RandomScalar(Uniform, min, max)
  }

  /**
   * The waterfall's `spawn` parameters: a disc of radius 0.05 around the nozzle, blue-green
   * colours of alpha 0.2 to 0.4, a speed of 3 to 5 at 18 to 36 degrees, and 0.1 to 3
   * seconds of life. TAU is `2 * m.pi`.
   */
  function WaterSpawn(m: Libm): SpawnParams
  {
    var tau := 2.0 * m.pi;
    SpawnParams(
      Polar(UniformRange(0.0, tau), UniformRange(0.0, 0.05)),
      UniformRange(0.004, 0.05),
      Rgb(UniformRange(0.0, 0.2), UniformRange(0.7, 0.9), UniformRange(0.9, 1.0), UniformRange(0.2, 0.4)),
      Polar(UniformRange(0.05 * tau, 0.1 * tau), UniformRange(3.0, 5.0)),
      UniformRange(0.1, 3.0))
  }

  /** Every waterfall range is UNIFORM and its colour is RGB, so spawning never fails. */
  lemma WaterSpawnTotal(m: Libm)
    ensures SamplerTotal(WaterSpawn(m))
  {
  }

  /**
   * The respawn of one dead slot: `particle_spawn` with the k-th draws, then moved by the
   * nozzle offset.
   */
  function WaterDrop(m: Libm, draws: nat -> SpawnDraws): (make: (Particle, nat) -> Particle)
  {
    WaterSpawnTotal(m);
    (p: Particle, k: nat) => var q := Spawn(m, WaterSpawn(m), p, draws(k)).value; q.(position := Add3(q.position, Nozzle))
  }

  /**
   * A water drop is alive, lives 0.1 to 3 seconds, starts 0.05 or less from the nozzle,
   * and moves at 0.6 to 1 units per second (the sampled 3 to 5, times 0.2).
   */
  lemma {:induction false} WaterDropShape(m: Libm, draws: nat -> SpawnDraws, p: Particle, k: nat)
    requires Lawful(m)
    ensures var q := WaterDrop(m, draws)(p, k);
      && !Dead(q)
      && 0.1 <= q.life <= 3.0
      && q.position.z == Nozzle.z
      && Norm(m, Sub2(Xy3(q.position), Xy3(Nozzle))) <= 0.05
      && 0.6 <= Norm(m, Xy3(q.velocity)) <= 1.0
  {
    var spec := WaterSpawn(m);
    var d := draws(k);
    WaterSpawnTotal(m);
    var s := Spawn(m, spec, p, d).value;
    var q := WaterDrop(m, draws)(p, k);
    assert Sub2(Xy3(q.position), Xy3(Nozzle)) == Xy3(s.position);
    PolarSampleLength(m, spec.position, d.position0, d.position1);
    var v := SampleVec2(m, spec.velocity, d.velocity0, d.velocity1).value;
    PolarSampleLength(m, spec.velocity, d.velocity0, d.velocity1);
    NormScale(m, v, 0.2);
    assert Xy3(q.velocity) == Scale2(v, 0.2);
  }

  /**
   * What the accumulator carries to the next frame. With enough dead slots only the
   * fraction is left (0 <= left < 1); otherwise the unmet whole particles stay owed.
   */
  lemma {:induction false} AccumulatorCarry(owed: real, dead: nat)
    requires owed >= 0.0
    ensures owed.Floor <= dead ==> 0.0 <= owed - SpawnCount(owed.Floor, dead) as real < 1.0
    ensures owed.Floor > dead ==> owed - SpawnCount(owed.Floor, dead) as real >= 1.0
  {
    assert owed.Floor as real <= owed < owed.Floor as real + 1.0;
    if owed.Floor > dead {
      assert SpawnCount(owed.Floor, dead) == dead;
      assert (dead + 1) as real <= owed.Floor as real;
    }
  }

  /** The globals of waterfall.cpp. */
  class Waterfall {
    const pool: ParticleSystem
    var particlesPerSecond: real
    var accumulated: real

    ghost predicate Valid()
    {
      pool.Valid() && pool.count == PoolSize
    }

    /**
     * `waterfall_init` with the globals' initial values: a pool of 10000 (which creation
     * leaves dead), a rate of 1000 per second and nothing accumulated.
     */
    constructor ()
      ensures Valid() && fresh(pool.particles)
      ensures forall i :: 0 <= i < PoolSize ==> pool.particles[i] == Killed(ZeroParticle)
      ensures particlesPerSecond == 1000.0 && accumulated == 0.0
    {
      pool := new ParticleSystem.Create(PoolSize);
      particlesPerSecond := 1000.0;
      accumulated := 0.0;
    }

    /**
     * `waterfall_frame` without its drawing: `rate * dt` is added to the accumulator, one
     * dead slot is respawned per whole unit owed, and every slot is simulated.
     */
    method Frame(m: Libm, draws: nat -> SpawnDraws, dt: real)
      requires Valid()
      modifies this`accumulated, pool.particles
      ensures Valid()
      ensures var owed := old(accumulated) + old(particlesPerSecond) * dt;
        var n := SpawnCount(owed.Floor, CountDead(old(pool.particles[..])));
        var spawned := Respawned(old(pool.particles[..]), n, WaterDrop(m, draws));
        && accumulated == owed - n as real
        && (forall i :: 0 <= i < PoolSize ==> pool.particles[i] == WaterfallStep(WaterPhysics, spawned[i], dt))
    {
      accumulated := accumulated + particlesPerSecond * dt;
      accumulated := pool.RespawnAccumulated(accumulated, WaterDrop(m, draws));
      pool.StepAll(p => WaterfallStep(WaterPhysics, p, dt));
    }
  }
}
