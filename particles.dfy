// One particle and what happens to it: `particle_simulate` and `particle_spawn`
// (implementation/utils.cpp), the radial attractors of the sandbox (example/code/sandbox.cpp,
// example/code/example_sandbox.cpp), and the per-frame step policy of each example.
//
// The source updates a particle through a pointer; here each update is a function from the
// old particle to the new one, and the particle arrays (module ParticleSystems) store it back.

module Particles {
  import opened Vectors
  import opened MathLib
  import opened Sampling

  /** `Particle`: twelve floats, laid out as the instance data the GPU reads. */
  datatype Particle = Particle(position: Vec3, scale: real, color: Vec4, velocity: Vec3, life: real)

  /** A slot is free for reuse once its life has run out. */
  predicate Dead(p: Particle)
  {
    p.life < 0.0
  }

  /** A particle whose bytes are all zero, as `memset` leaves it. */
  const ZeroParticle := Particle(Vec3(0.0, 0.0, 0.0), 0.0, Vec4(0.0, 0.0, 0.0, 0.0), Vec3(0.0, 0.0, 0.0), 0.0)

  /** The init loops of the examples: `scale = 0`, `life = -1`, the rest kept. */
  function Killed(p: Particle): (r: Particle)
    ensures Dead(r) && r.scale == 0.0
    ensures r.position == p.position && r.color == p.color && r.velocity == p.velocity
  {
    p.(scale := 0.0, life := -1.0)
  }

  /** `PhysicsParams` of sparkles_utils.h. */
  datatype PhysicsParams = PhysicsParams(gravity: Vec3, friction: real)

  /**
   * `particle_simulate`: semi-implicit Euler. The velocity gains gravity first, the
   * position advances with that new velocity, and only then is friction applied.
   */
  function Simulate(p: Particle, physics: PhysicsParams, dt: real): (r: Particle)
    ensures r.position == Add3(p.position, Scale3(Add3(p.velocity, Scale3(physics.gravity, dt)), dt))
    ensures r.velocity == Scale3(Add3(p.velocity, Scale3(physics.gravity, dt)), physics.friction)
    ensures r.life == p.life - dt
    ensures r.scale == p.scale && r.color == p.color
  {
    var v := Add3(p.velocity, Scale3(physics.gravity, dt));
    p.(position := Add3(p.position, Scale3(v, dt)), velocity := Scale3(v, physics.friction), life := p.life - dt)
  }

  /** Time never revives a particle: with `dt >= 0` a dead particle stays dead. */
  lemma SimulateKeepsDead(p: Particle, physics: PhysicsParams, dt: real)
    requires Dead(p) && dt >= 0.0
    ensures Dead(Simulate(p, physics, dt))
  {
  }

  /**
   * Without gravity and with friction 1 a particle moves in a straight line: two steps of
   * `dt` take it as far as its velocity carries it in `2 dt`.
   */
  lemma {:induction false} SimulateUniformMotion(p: Particle, dt: real)
    ensures var physics := PhysicsParams(Vec3(0.0, 0.0, 0.0), 1.0);
      var q := Simulate(Simulate(p, physics, dt), physics, dt);
      && q.velocity == p.velocity
      && q.position == Add3(p.position, Scale3(p.velocity, 2.0 * dt))
      && q.life == p.life - 2.0 * dt
  {
    var physics := PhysicsParams(Vec3(0.0, 0.0, 0.0), 1.0);
    var q1 := Simulate(p, physics, dt);
    assert Scale3(physics.gravity, dt) == Vec3(0.0, 0.0, 0.0);
    assert q1.velocity == p.velocity;
  }

  // ------------------------------------------------------------------ spawning

  /** The ten uniform draws `particle_spawn` makes, in the order it makes them. */
  datatype SpawnDraws = SpawnDraws(
    position0: Unit, position1: Unit,
    scale: Unit,
    red: Unit, green: Unit, blue: Unit, alpha: Unit,
    velocity0: Unit, velocity1: Unit,
    life: Unit)

  /** The sampler never fails on these parameters: every range is UNIFORM and the colour is RGB. */
  ghost predicate SamplerTotal(spec: SpawnParams)
  {
    && ScalarTotal(Vec2Ranges(spec.position).0) && ScalarTotal(Vec2Ranges(spec.position).1)
    && ScalarTotal(spec.scale)
    && spec.color.Rgb?
    && ScalarTotal(spec.color.red) && ScalarTotal(spec.color.green)
    && ScalarTotal(spec.color.blue) && ScalarTotal(spec.color.alpha)
    && ScalarTotal(Vec2Ranges(spec.velocity).0) && ScalarTotal(Vec2Ranges(spec.velocity).1)
    && ScalarTotal(spec.life)
  }

  ghost predicate ScalarTotal(s: RandomScalar)
  {
    s.distribution == Uniform
  }

  function Vec2Ranges(v: RandomVec2): (RandomScalar, RandomScalar)
  {
    match v
    case Rectangular(x, y) => (x, y)
    case Polar(angle, radius) => (angle, radius)
  }

  /**
   * `particle_spawn`: position.xy, scale, colour, velocity.xy (scaled by 0.2) and life
   * are drawn from `spec`; position.z becomes 0 and velocity.z is kept. A sampler that
   * stops on an assertion makes the whole spawn an error.
   */
  function Spawn(m: Libm, spec: SpawnParams, p: Particle, d: SpawnDraws): (r: Result<Particle>)
    ensures r.Ok? <==> SamplerTotal(spec)
    ensures r.Ok? ==>
      && r.value.position.z == 0.0
      && r.value.velocity.z == p.velocity.z
      && Xy3(r.value.position) == SampleVec2(m, spec.position, d.position0, d.position1).value
      && Xy3(r.value.velocity) == Scale2(SampleVec2(m, spec.velocity, d.velocity0, d.velocity1).value, 0.2)
      && Between(r.value.scale, spec.scale.min, spec.scale.max)
      && Between(r.value.life, spec.life.min, spec.life.max)
      && r.value.color == SampleColor(spec.color, d.red, d.green, d.blue, d.alpha).value
  {
    var position := SampleVec2(m, spec.position, d.position0, d.position1);
    var scale := SampleScalar(spec.scale, d.scale);
    var color := SampleColor(spec.color, d.red, d.green, d.blue, d.alpha);
    var velocity := SampleVec2(m, spec.velocity, d.velocity0, d.velocity1);
    var life := SampleScalar(spec.life, d.life);
    if position.Err? then Err(position.failure)
    else if scale.Err? then Err(scale.failure)
    else if color.Err? then Err(color.failure)
    else if velocity.Err? then Err(velocity.failure)
    else if life.Err? then Err(life.failure)
    else Ok(Particle(
      WithXy(p.position, position.value).(z := 0.0),
      scale.value,
      color.value,
      WithXy(p.velocity, Scale2(velocity.value, 0.2)),
      life.value))
  }

  /** A particle spawned from a life range that starts at zero or above is alive. */
  lemma SpawnedIsAlive(m: Libm, spec: SpawnParams, p: Particle, d: SpawnDraws)
    requires SamplerTotal(spec) && 0.0 <= spec.life.min <= spec.life.max
    ensures !Dead(Spawn(m, spec, p, d).value)
  {
  }

  // ---------------------------------------------------------------- attractors

  /** `ForceType`: how an attractor's pull grows with the distance r. */
  datatype ForceType = Linear | Inverse | InverseSquared

  datatype Attractor = Attractor(
    active: bool,
    position: Vec2,
    forceType: ForceType,
    radius: real,
    factor: real,
    magnitudeCap: real)

  /** `x / y`, where a zero divisor (an infinity or NaN in the source) gives 0. */
  function Quotient(x: real, y: real): real
  {
    if y == 0.0 then 0.0 else x / y
  }

  /**
   * The force of one active attractor on a particle at `at`, before the cap: zero outside
   * the radius, otherwise `k r`, `k / r` or `k / r^2` along the unit vector towards the
   * attractor.
   */
  function RawForce(m: Libm, a: Attractor, at: Vec2): (f: Vec2)
    ensures Norm2(Sub2(a.position, at)) >= a.radius * a.radius ==> f == Vec2(0.0, 0.0)
  {
    var delta := Sub2(a.position, at);
    var distance2 := Norm2(delta);
    var distance := m.sqrt(distance2);
    var direction := Normalize(m, delta);
    if distance2 < a.radius * a.radius then
      match a.forceType
      case InverseSquared => ScaleLeft2(Quotient(a.factor, distance2), direction)
      case Inverse => ScaleLeft2(Quotient(a.factor, distance), direction)
      case Linear => ScaleLeft2(a.factor * distance, direction)
    else Vec2(0.0, 0.0)
  }

  /** `if (norm(force) > cap) force *= cap / norm(force)` */
  function CapForce(m: Libm, f: Vec2, cap: real): (r: Vec2)
    ensures f == Vec2(0.0, 0.0) ==> r == f
  {
    var magnitude := Norm(m, f);
    if magnitude > cap then Scale2(f, Quotient(cap, magnitude)) else f
  }

  /**
   * The cap keeps the direction and bounds the length: a force within the cap is
   * untouched, a longer one is shortened to exactly the cap.
   */
  lemma {:induction false} CapForceBounds(m: Libm, f: Vec2, cap: real)
    requires Lawful(m) && cap >= 0.0
    ensures Norm(m, f) <= cap ==> CapForce(m, f, cap) == f
    ensures Norm(m, f) > cap ==>
      CapForce(m, f, cap) == Scale2(f, cap / Norm(m, f)) && Norm(m, CapForce(m, f, cap)) == cap
    ensures Norm(m, CapForce(m, f, cap)) <= cap
  {
    var n := Norm(m, f);
    NormZero(m, f);
    if n > cap {
      var k := cap / n;
      assert k >= 0.0;
      NormScale(m, f, k);
      assert k * n == cap;
    }
  }

  /** The velocity change one attractor gives over `dt`: `force * dt`, zero when inactive. */
  function AttractorPull(m: Libm, a: Attractor, at: Vec2, dt: real): (dv: Vec2)
    ensures !a.active ==> dv == Vec2(0.0, 0.0)
    ensures Norm2(Sub2(a.position, at)) >= a.radius * a.radius ==> dv == Vec2(0.0, 0.0)
  {
    Scale2(PullForce(m, a, at), dt)
  }

  /** The capped force of an active attractor, zero for an inactive one. */
  function PullForce(m: Libm, a: Attractor, at: Vec2): Vec2
  {
    if a.active then CapForce(m, RawForce(m, a, at), a.magnitudeCap) else Vec2(0.0, 0.0)
  }

  /** Whatever the force law, an attractor never pulls harder than its cap. */
  lemma PullForceBounded(m: Libm, a: Attractor, at: Vec2)
    requires Lawful(m) && a.magnitudeCap >= 0.0
    ensures Norm(m, PullForce(m, a, at)) <= a.magnitudeCap
  {
    if a.active {
      CapForceBounds(m, RawForce(m, a, at), a.magnitudeCap);
    } else {
      ZeroNorm(m);
    }
  }

  lemma ZeroNorm(m: Libm)
    requires Lawful(m)
    ensures Norm(m, Vec2(0.0, 0.0)) == 0.0
  {
    assert Norm2(Vec2(0.0, 0.0)) == 0.0;
    NormZero(m, Vec2(0.0, 0.0));
  }

  /**
   * The velocity of a particle at `at` after the attractor loop visits the attractors
   * `attractors[..n]` in order.
   */
  function PulledVelocity(m: Libm, attractors: seq<Attractor>, n: nat, at: Vec2, v: Vec2, dt: real): Vec2
    requires n <= |attractors|
  {
    if n == 0 then v
    else Add2(PulledVelocity(m, attractors, n - 1, at, v, dt), AttractorPull(m, attractors[n - 1], at, dt))
  }

  /** Inactive attractors and attractors out of range leave the velocity as it was. */
  lemma {:induction false} QuietAttractorsLeaveVelocity(m: Libm, attractors: seq<Attractor>, n: nat, at: Vec2, v: Vec2, dt: real)
    requires n <= |attractors|
    requires forall i :: 0 <= i < n ==>
      !attractors[i].active || Norm2(Sub2(attractors[i].position, at)) >= attractors[i].radius * attractors[i].radius
    ensures PulledVelocity(m, attractors, n, at, v, dt) == v
  {
    if n > 0 {
      QuietAttractorsLeaveVelocity(m, attractors, n - 1, at, v, dt);
    }
  }

  // --------------------------------------------------------------- step policies

  /** The min of two floats: `fmin`, and the `min` macro of the waterfall. */
  function Min(a: real, b: real): real
  {
    if a < b then a else b
  }

  /**
   * What every example's step does to a particle's age: life drops by `dt`, alpha is
   * lowered to the new life if that is smaller, and red, green and blue are kept.
   */
  ghost predicate Aged(p: Particle, q: Particle, dt: real)
  {
    && q.life == p.life - dt
    && q.color.w == Min(p.color.w, q.life)
    && Xyz4(q.color) == Xyz4(p.color)
  }

  /** The sandbox step after its attractor loop has produced the velocity `v`. */
  function SandboxAdvance(p: Particle, v: Vec3, friction: real, dt: real): (r: Particle)
    ensures Aged(p, r, dt)
    ensures r.position == Add3(p.position, Scale3(v, dt))
    ensures r.velocity == Scale3(v, friction)
    ensures Dead(r) ==> r.scale == 0.0
    ensures !Dead(r) ==> r.scale == p.scale
  {
    var life := p.life - dt;
    Particle(
      Add3(p.position, Scale3(v, dt)),
      if life < 0.0 then 0.0 else p.scale,
      p.color.(w := Min(p.color.w, life)),
      Scale3(v, friction),
      life)
  }

  /**
   * One particle's step in the sandbox frame: gravity on velocity.xy, the attractor loop,
   * position by the new velocity, friction, then ageing with scale 0 on death.
   */
  function SandboxStep(m: Libm, gravity: Vec2, friction: real, attractors: seq<Attractor>, p: Particle, dt: real): (r: Particle)
    ensures Aged(p, r, dt)
    ensures Dead(r) ==> r.scale == 0.0
    ensures !Dead(r) ==> r.scale == p.scale
  {
    var v := Add2(Xy3(p.velocity), Scale2(gravity, dt));
    var v' := PulledVelocity(m, attractors, |attractors|, Xy3(p.position), v, dt);
    SandboxAdvance(p, WithXy(p.velocity, v'), friction, dt)
  }

  /**
   * One particle's step in the firework frame. Unlike the sandbox, friction is applied to
   * the velocity before the position advances.
   */
  function FireworkStep(gravity: Vec2, friction: real, p: Particle, dt: real): (r: Particle)
    ensures Aged(p, r, dt)
    ensures Dead(r) ==> r.scale == 0.0
    ensures !Dead(r) ==> r.scale == p.scale
    ensures r.velocity == Scale3(WithXy(p.velocity, Add2(Xy3(p.velocity), Scale2(gravity, dt))), friction)
    ensures r.position == Add3(p.position, Scale3(r.velocity, dt))
  {
    var v := Scale3(WithXy(p.velocity, Add2(Xy3(p.velocity), Scale2(gravity, dt))), friction);
    var life := p.life - dt;
    Particle(
      Add3(p.position, Scale3(v, dt)),
      if life < 0.0 then 0.0 else p.scale,
      p.color.(w := Min(p.color.w, life)),
      v,
      life)
  }

  /**
   * With friction 1 the firework and sandbox orders agree; with any other friction they put
   * the particle in different places whenever its velocity after gravity is not zero and
   * `dt` is not zero.
   */
  lemma {:induction false} FrictionOrderMatters(gravity: Vec2, friction: real, p: Particle, dt: real)
    ensures friction == 1.0 ==>
      FireworkStep(gravity, friction, p, dt) == SandboxStep(Libm(x => x, x => x, x => x, 1.0), gravity, friction, [], p, dt)
    ensures
      var v := WithXy(p.velocity, Add2(Xy3(p.velocity), Scale2(gravity, dt)));
      friction != 1.0 && dt != 0.0 && v != Vec3(0.0, 0.0, 0.0) ==>
        FireworkStep(gravity, friction, p, dt).position != SandboxStep(Libm(x => x, x => x, x => x, 1.0), gravity, friction, [], p, dt).position
  {
    var m := Libm(x => x, x => x, x => x, 1.0);
    var v := WithXy(p.velocity, Add2(Xy3(p.velocity), Scale2(gravity, dt)));
    var s := SandboxStep(m, gravity, friction, [], p, dt);
    assert s == SandboxAdvance(p, v, friction, dt);
    var f := FireworkStep(gravity, friction, p, dt);
    if friction == 1.0 {
      assert Scale3(v, friction) == v;
    }
    if friction != 1.0 && dt != 0.0 && v != Vec3(0.0, 0.0, 0.0) {
      PositionsApart(p.position, v, friction, dt);
    }
  }

  /** Moving by `v` for `dt`, with and without friction applied first, ends in different places. */
  lemma PositionsApart(position: Vec3, v: Vec3, friction: real, dt: real)
    requires v != Vec3(0.0, 0.0, 0.0) && dt != 0.0 && friction != 1.0
    ensures Add3(position, Scale3(Scale3(v, friction), dt)) != Add3(position, Scale3(v, dt))
  {
    var f, s := Add3(position, Scale3(Scale3(v, friction), dt)), Add3(position, Scale3(v, dt));
    if v.x != 0.0 {
      MovedApart(position.x, v.x, friction, dt, f.x, s.x);
    } else if v.y != 0.0 {
      MovedApart(position.y, v.y, friction, dt, f.y, s.y);
    } else {
      MovedApart(position.z, v.z, friction, dt, f.z, s.z);
    }
  }

  /** One coordinate moved at speed `c` for `dt`, with and without friction applied first. */
  lemma MovedApart(start: real, c: real, friction: real, dt: real, withFriction: real, without: real)
    requires c != 0.0 && dt != 0.0 && friction != 1.0
    requires withFriction == start + c * friction * dt && without == start + c * dt
    ensures withFriction != without
  {
    var x := c * dt;
    NonZeroProduct(c, dt);
    ProductsDiffer(x, friction);
    ReorderProduct(c, friction, dt);
    assert withFriction == start + x * friction && without == start + x;
  }

  lemma NonZeroProduct(a: real, b: real)
    requires a != 0.0 && b != 0.0
    ensures a * b != 0.0
  {
  }

  lemma ReorderProduct(a: real, b: real, c: real)
    ensures (a * b) * c == (a * c) * b
  {
  }

  lemma ProductsDiffer(x: real, k: real)
    requires x != 0.0 && k != 1.0
    ensures x * k != x
  {
    var d := k - 1.0;
    assert x * k - x == x * d;
    NonZeroProduct(x, d);
  }

  /** One particle's step in the waterfall frame: `particle_simulate`, then alpha = min(life, alpha). */
  function WaterfallStep(physics: PhysicsParams, p: Particle, dt: real): (r: Particle)
    ensures Aged(p, r, dt)
    ensures r.scale == p.scale
  {
    var q := Simulate(p, physics, dt);
    q.(color := q.color.(w := Min(q.life, q.color.w)))
  }
}
