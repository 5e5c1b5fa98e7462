// The firework example (example/code/firework.cpp): one pool of 1000 particles; every 0.5
// to 2 seconds an explosion respawns 300 to 700 dead slots around a random point, and every
// frame each slot falls under gravity (0, -0.2) with friction 0.99.
//
// The explosion's samplers (`random_get1`, `random_get2`) and the `particle_spawn`
// overload for `ParticleSpawnParams` are not part of this model: their results are passed in.

module Fireworks {
  import opened Vectors
  import opened Particles
  import opened ParticleSystems

  const MaxParticleCount: nat := 1000

  /**
   * The firework's timer test, `next < 0 || timer > next`. Unlike the sandbox's `>=`, a
   * timer that lands exactly on the interval waits one more frame.
   */
  function ExplosionDue(timer: real, next: real): (due: bool)
    ensures next < 0.0 ==> due
    ensures next >= 0.0 ==> (due <==> timer > next)
  {
    next < 0.0 || timer > next
  }

  /**
   * The respawn of one explosion particle: `particle_spawn`, then position.xy moved by the
   * explosion's centre.
   */
  function ExplosionParticle(spawn: (Particle, nat) -> Particle, center: Vec2): (make: (Particle, nat) -> Particle)
    ensures forall p, k :: Xy3(make(p, k).position) == Add2(Xy3(spawn(p, k).position), center)
    ensures forall p, k :: make(p, k).(position := spawn(p, k).position) == spawn(p, k)
  {
    (p: Particle, k: nat) => var q := spawn(p, k); q.(position := WithXy(q.position, Add2(Xy3(q.position), center)))
  }

  /** The globals of firework.cpp. */
  class Firework {
    const system: ParticleSystem
    var timer: real
    var next: real
    var gravity: Vec2
    var friction: real

    ghost predicate Valid()
    {
      system.Valid() && system.count == MaxParticleCount
    }

    /**
     * `firework_init` with the globals' initial values: every slot dead with scale 0, the
     * timer at 0 and the interval at -1, so the first frame explodes.
     */
    constructor ()
      ensures Valid() && fresh(system.particles)
      ensures forall i :: 0 <= i < MaxParticleCount ==> system.particles[i] == Killed(ZeroParticle)
      ensures timer == 0.0 && next == -1.0
      ensures gravity == Vec2(0.0, -0.2) && friction == 0.99
    {
      var s := new ParticleSystem.Create(MaxParticleCount);
      s.KillAll();
      system := s;
      timer := 0.0;
      next := -1.0;
      gravity := Vec2(0.0, -0.2);
      friction := 0.99;
    }

    /**
     * `firework_frame` without its drawing: the timer advances; a due explosion respawns up
     * to `(int) amount` dead slots around `center` and draws the next interval; then every
     * slot takes the firework step.
     */
    method Frame(dt: real, center: Vec2, amount: real, spawn: (Particle, nat) -> Particle, interval: real)
      requires Valid()
      modifies this, system.particles
      ensures Valid() && gravity == old(gravity) && friction == old(friction)
      ensures var due := ExplosionDue(old(timer) + dt, old(next));
        var burst := if due
          then Respawned(old(system.particles[..]), SpawnCount(Truncate(amount), CountDead(old(system.particles[..]))), ExplosionParticle(spawn, center))
          else old(system.particles[..]);
        && (forall i :: 0 <= i < MaxParticleCount ==> system.particles[i] == FireworkStep(gravity, friction, burst[i], dt))
        && timer == (if due then 0.0 else old(timer) + dt)
        && next == (if due then interval else old(next))
    {
      timer := timer + dt;
      if next < 0.0 || timer > next {
        var remaining := system.Respawn(Truncate(amount), ExplosionParticle(spawn, center));
        next := interval;
        timer := 0.0;
      }
      var g, f := gravity, friction;
      system.StepAll(p => FireworkStep(g, f, p, dt));
    }
  }
}
