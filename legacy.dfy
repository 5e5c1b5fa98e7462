// The first prototype of the engine (code/sparkles.cpp): a flat particle with 2-D position
// and velocity, a system that samples every particle once when it is initialised, and an
// update and a render that do nothing yet. Its samplers are the ones of `Sampling`, drawing
// from `random_uniform_get`; the draws are parameters here.

module Legacy {
  import opened Vectors
  import opened MathLib
  import opened Sampling
  import opened Particles
  import opened ParticleSystems

  /** The prototype's `Particle`: position and velocity in the plane. */
  datatype LegacyParticle = LegacyParticle(position: Vec2, scale: real, color: Vec4, velocity: Vec2, life: real)

  /** The prototype's `ParticleParams`: planar gravity, friction and the spawn ranges. */
  datatype LegacyParams = LegacyParams(gravity: Vec2, friction: real, spawn: SpawnParams)

  /** `sizeof(Particle)`: ten floats. */
  const LegacyParticleBytes: nat := 40

  /**
   * The sampling of one slot in `particle_system_initialize`: position, velocity, scale,
   * life and colour, each drawn once from its range; a sampler that stops on an assertion
   * stops the whole initialisation.
   */
  function LegacySample(m: Libm, spec: SpawnParams, d: SpawnDraws): (r: Result<LegacyParticle>)
    ensures r.Ok? <==> SamplerTotal(spec)
    ensures r.Ok? ==>
      && Between(r.value.scale, spec.scale.min, spec.scale.max)
      && Between(r.value.life, spec.life.min, spec.life.max)
  {
    var position := SampleVec2(m, spec.position, d.position0, d.position1);
    var velocity := SampleVec2(m, spec.velocity, d.velocity0, d.velocity1);
    var scale := SampleScalar(spec.scale, d.scale);
    var life := SampleScalar(spec.life, d.life);
    var color := SampleColor(spec.color, d.red, d.green, d.blue, d.alpha);
    if position.Err? then Err(position.failure)
    else if velocity.Err? then Err(velocity.failure)
    else if scale.Err? then Err(scale.failure)
    else if life.Err? then Err(life.failure)
    else if color.Err? then Err(color.failure)
    else Ok(LegacyParticle(position.value, scale.value, color.value, velocity.value, life.value))
  }

  /**
   * The prototype and `particle_spawn` draw the same particle from the same draws, except
   * that `particle_spawn` scales the velocity by 0.2 and keeps the slot's z components.
   */
  lemma LegacyAgreesWithSpawn(m: Libm, spec: SpawnParams, p: Particle, d: SpawnDraws)
    requires SamplerTotal(spec)
    ensures var legacy, spawned := LegacySample(m, spec, d).value, Spawn(m, spec, p, d).value;
      && legacy.position == Xy3(spawned.position)
      && Scale2(legacy.velocity, 0.2) == Xy3(spawned.velocity)
      && legacy.scale == spawned.scale && legacy.life == spawned.life && legacy.color == spawned.color
  {
  }

  /**
   * `instance_buffer_size`: the pool's byte size in 32 bits, which wraps for pools of 2^32 / 40
   * particles or more.
   */
  function LegacyInstanceBufferBytes(count: nat): (r: nat)
    ensures r < Uint32Modulus
    ensures count * LegacyParticleBytes < Uint32Modulus ==> r == count * LegacyParticleBytes
  {
    (count * LegacyParticleBytes) % Uint32Modulus
  }

  /** The parameters `initialize` hands to the system of 1000 particles. */
  function InitialParams(): LegacyParams
  {
    LegacyParams(Vec2(0.0, 1.0), 0.9, SpawnParams(
      Rectangular(RandomScalar(Uniform, -1.0, 1.0), RandomScalar(Uniform, -0.25, 0.25)),
      RandomScalar(Uniform, 1.0, 1.0),
      Rgb(RandomScalar(Uniform, 0.8, 1.0), RandomScalar(Uniform, 0.8, 1.0),
          RandomScalar(Uniform, 0.8, 1.0), RandomScalar(Uniform, 0.8, 1.0)),
      Rectangular(RandomScalar(Uniform, 0.0, 0.0), RandomScalar(Uniform, 1.0, 2.0)),
      RandomScalar(Uniform, 1.0, 3.0)))
  }

  const InitialCount: nat := 1000

  /**
   * Every particle drawn from the initial parameters lies in the band x in [-1, 1],
   * y in [-0.25, 0.25], rises straight up at 1 to 2 units per second, has scale 1, lives 1
   * to 3 seconds and is a light colour (every channel 0.8 or above).
   */
  lemma {:induction false} InitialParticleShape(m: Libm, d: SpawnDraws)
    ensures LegacySample(m, InitialParams().spawn, d).Ok?
    ensures var q := LegacySample(m, InitialParams().spawn, d).value;
      && -1.0 <= q.position.x <= 1.0 && -0.25 <= q.position.y <= 0.25
      && q.velocity.x == 0.0 && 1.0 <= q.velocity.y <= 2.0
      && q.scale == 1.0 && 1.0 <= q.life <= 3.0
      && 0.8 <= q.color.x <= 1.0 && 0.8 <= q.color.y <= 1.0
      && 0.8 <= q.color.z <= 1.0 && 0.8 <= q.color.w <= 1.0
  {
    var spec := InitialParams().spawn;
    var position := SampleVec2(m, spec.position, d.position0, d.position1).value;
    var velocity := SampleVec2(m, spec.velocity, d.velocity0, d.velocity1).value;
    assert Between(position.x, -1.0, 1.0) && Between(position.y, -0.25, 0.25);
    assert Between(velocity.x, 0.0, 0.0) && Between(velocity.y, 1.0, 2.0);
    var color := SampleColor(spec.color, d.red, d.green, d.blue, d.alpha).value;
    assert Between(color.x, 0.8, 1.0) && Between(color.y, 0.8, 1.0);
    assert Between(color.z, 0.8, 1.0) && Between(color.w, 0.8, 1.0);
  }

  /** The slot draws of `particle_system_initialize`, one slot after another. */
  method SampleAll(m: Libm, spec: SpawnParams, count: nat, draws: nat -> SpawnDraws) returns (particles: array<LegacyParticle>)
    requires SamplerTotal(spec)
    ensures fresh(particles) && particles.Length == count
    ensures forall i :: 0 <= i < count ==> particles[i] == LegacySample(m, spec, draws(i)).value
  {
    particles := new LegacyParticle[count];
    var i := 0;
    while i < count
      invariant 0 <= i <= count
      invariant forall j :: 0 <= j < i ==> particles[j] == LegacySample(m, spec, draws(j)).value
    {
      particles[i] := LegacySample(m, spec, draws(i)).value;
      i := i + 1;
    }
  }

  /** The prototype's `ParticleSystem`. */
  class LegacySystem {
    var params: LegacyParams
    var count: nat
    var particles: array<LegacyParticle>
    var instanceBufferBytes: nat

    /**
     * `particle_system_initialize`: the parameters are copied, and every one of `count` new
     * particles is drawn from them (none starts dead, unlike `particle_system_create`); the
     * instance buffer is sized for the pool, in 32 bits.
     */
    constructor Initialize(m: Libm, count: nat, params: LegacyParams, draws: nat -> SpawnDraws)
      requires count < Uint32Modulus && SamplerTotal(params.spawn)
      ensures this.params == params && this.count == count
      ensures fresh(particles) && particles.Length == count
      ensures forall i :: 0 <= i < count ==> particles[i] == LegacySample(m, params.spawn, draws(i)).value
      ensures instanceBufferBytes == LegacyInstanceBufferBytes(count)
    {
      this.params := params;
      this.count := count;
      var drawn := SampleAll(m, params.spawn, count, draws);
      particles := drawn;
      instanceBufferBytes := LegacyInstanceBufferBytes(count);
    }
  }

  /** `initialize`'s pool: 1000 particles from the initial parameters, a 40000-byte buffer. */
  method Initial(m: Libm, draws: nat -> SpawnDraws) returns (system: LegacySystem)
    ensures fresh(system) && system.count == InitialCount && system.particles.Length == InitialCount
    ensures system.instanceBufferBytes == 40000
    ensures forall i :: 0 <= i < InitialCount ==> 1.0 <= system.particles[i].life <= 3.0
  {
    InitialParticleShape(m, draws(0));
    system := new LegacySystem.Initialize(m, InitialCount, InitialParams(), draws);
    forall i | 0 <= i < InitialCount
      ensures 1.0 <= system.particles[i].life <= 3.0
    {
      InitialParticleShape(m, draws(i));
    }
  }
}
