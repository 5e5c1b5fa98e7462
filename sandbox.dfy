// The sandbox example's simulation (`sandbox_init` and `sandbox_frame` in
// example/code/sandbox.cpp; the same loops appear in example/code/example_sandbox.cpp):
// one pool of 5000 particles per emitter slot, an emission timer per emitter, a burst that
// respawns dead slots with colours chosen from the emitter's weighted palette, and a step
// that applies gravity, the attractors, friction and ageing to every slot.
//
// The samplers `random_get1` and `random_get2` and the uniform draw are not part of this
// model: the values they return this frame are passed in as `BurstDraws`.

module Sandboxes {
  import opened Vectors
  import opened MathLib
  import opened Sampling
  import opened Particles
  import opened ParticleSystems
  import opened SandboxStates
  import opened Starvation

  /** What one spawned particle draws: its offset, velocity, life, size and palette draw. */
  datatype ParticleDraws = ParticleDraws(offset: Vec2, velocity: Vec2, life: real, size: real, pick: Unit)

  /**
   * What one emitter draws in a frame: the amount to spawn (`random_get1` of the particles
   * per emission), the draws of the k-th particle spawned, and the next interval.
   */
  datatype BurstDraws = BurstDraws(amount: real, particles: nat -> ParticleDraws, interval: real)

  /**
   * The respawn of one dead slot: position.xy at the emitter plus the offset, velocity.xy
   * as drawn, life and scale as drawn, and the colour picked from the palette; z is kept.
   */
  function SpawnedParticle(e: Emitter, d: ParticleDraws, p: Particle): (q: Particle)
    requires Editable(e)
    ensures Xy3(q.position) == Add2(e.position, d.offset) && q.position.z == p.position.z
    ensures Xy3(q.velocity) == d.velocity && q.velocity.z == p.velocity.z
    ensures q.life == d.life && q.scale == d.size
    ensures q.color == PickedColor(e.colors[..e.colorCount], e.colorWeights[..e.colorCount], d.pick)
  {
    Particle(
      WithXy(p.position, Add2(e.position, d.offset)),
      d.size,
      PickedColor(e.colors[..e.colorCount], e.colorWeights[..e.colorCount], d.pick),
      WithXy(p.velocity, d.velocity),
      d.life)
  }

  /**
   * A spawned particle's colour is a palette colour of positive weight whenever the palette
   * weights are non-negative with a positive total and the draw is below 1.
   */
  lemma {:induction false} SpawnedColorFromPalette(e: Emitter, d: ParticleDraws, p: Particle)
    requires Editable(e)
    requires NonNegative(e.colorWeights[..e.colorCount]) && Sum(e.colorWeights[..e.colorCount]) > 0.0
    requires d.pick < 1.0
    ensures exists k :: (0 <= k < e.colorCount && e.colorWeights[k] > 0.0 &&
      SpawnedParticle(e, d, p).color == e.colors[k])
  {
    var w := e.colorWeights[..e.colorCount];
    var r := Threshold(Sum(w), d.pick);
    PickSucceeds(w, d.pick);
    PickHasPositiveWeight(w, r);
    var k := Pick(w, r).value;
    assert e.colorWeights[k] == w[k];
  }

  /** The burst's spawn function: the k-th particle spawned uses the k-th particle draws. */
  function Maker(e: Emitter, draws: nat -> ParticleDraws): (Particle, nat) -> Particle
    requires Editable(e)
  {
    (p: Particle, k: nat) => SpawnedParticle(e, draws(k), p)
  }

  /** Whether the emission timer fires: no interval yet, or the timer reached it. */
  function Fires(timer: real, next: real): bool
  {
    next < 0.0 || timer >= next
  }

  /** The pool after a burst of `d` from `e`. */
  function BurstPool(e: Emitter, pool: seq<Particle>, d: BurstDraws): seq<Particle>
    requires Editable(e)
  {
    Respawned(pool, SpawnCount(Truncate(d.amount), CountDead(pool)), Maker(e, d.particles))
  }

  /** The demand a burst could not place, reported to `notify_starvation`. */
  function Shortfall(pool: seq<Particle>, d: BurstDraws): (r: int)
    ensures Truncate(d.amount) > 0 ==> r >= 0
    ensures r > 0 <==> Truncate(d.amount) > CountDead(pool)
  {
    Truncate(d.amount) - SpawnCount(Truncate(d.amount), CountDead(pool))
  }

  /**
   * A burst spawns `min(demand, dead)` particles: when every drawn life is non-negative,
   * the pool has exactly that many dead slots fewer.
   */
  lemma {:induction false} BurstFillsDeadSlots(e: Emitter, pool: seq<Particle>, d: BurstDraws)
    requires Editable(e)
    requires forall k :: d.particles(k).life >= 0.0
    ensures CountDead(BurstPool(e, pool, d)) == CountDead(pool) - SpawnCount(Truncate(d.amount), CountDead(pool))
  {
    var n := SpawnCount(Truncate(d.amount), CountDead(pool));
    forall j | 0 <= j < |pool| && Dead(pool[j]) && Rank(pool, j) < n
      ensures !Dead(Maker(e, d.particles)(pool[j], Rank(pool, j)))
    {
      assert d.particles(Rank(pool, j)).life >= 0.0;
    }
    RespawnedDeadCount(pool, n, Maker(e, d.particles));
  }

  /** The pool after the step loop. */
  function SteppedPool(m: Libm, gravity: Vec2, friction: real, attractors: seq<Attractor>, pool: seq<Particle>, dt: real): (r: seq<Particle>)
    ensures |r| == |pool|
  {
    seq(|pool|, i requires 0 <= i < |pool| => SandboxStep(m, gravity, friction, attractors, pool[i], dt))
  }

  /** The step loop ages every slot and zeroes the scale of each slot that dies. */
  lemma SteppedPoolAges(m: Libm, gravity: Vec2, friction: real, attractors: seq<Attractor>, pool: seq<Particle>, dt: real)
    ensures var r := SteppedPool(m, gravity, friction, attractors, pool, dt);
      && (forall i :: 0 <= i < |pool| ==> Aged(pool[i], r[i], dt))
      && (forall i :: 0 <= i < |pool| && Dead(r[i]) ==> r[i].scale == 0.0)
  {
  }

  /** An emitter's pool at the end of its part of the frame. */
  function EmitterPool(
    m: Libm, gravity: Vec2, friction: real, attractors: seq<Attractor>,
    e: Emitter, timer: real, next: real, pool: seq<Particle>, d: BurstDraws, dt: real): seq<Particle>
    requires Editable(e)
  {
    if !e.active then pool
    else
      var spawned := if Fires(timer + dt, next) then BurstPool(e, pool, d) else pool;
      SteppedPool(m, gravity, friction, attractors, spawned, dt)
  }

  /** Whether emitter `e` bursts this frame: it is active and its timer reached the interval. */
  predicate Fired(e: Emitter, timer: real, next: real, dt: real)
  {
    e.active && Fires(timer + dt, next)
  }

  /** The emission timer after the frame: restarted by a burst, advanced while active. */
  function NextTimer(e: Emitter, timer: real, next: real, dt: real): (r: real)
    ensures Fired(e, timer, next, dt) ==> r == 0.0
    ensures !e.active ==> r == timer
    ensures e.active && !Fired(e, timer, next, dt) ==> r == timer + dt
  {
    if Fired(e, timer, next, dt) then 0.0 else if e.active then timer + dt else timer
  }

  /** The interval after the frame: the drawn one after a burst, otherwise as it was. */
  function NextInterval(e: Emitter, timer: real, next: real, d: BurstDraws, dt: real): (r: real)
    ensures r == if Fired(e, timer, next, dt) then d.interval else next
  {
    if Fired(e, timer, next, dt) then d.interval else next
  }

  /** The notifications emitter `e` makes in its frame: its shortfall after a burst, else none. */
  function Emitted(e: Emitter, timer: real, next: real, pool: seq<Particle>, d: BurstDraws, dt: real): (r: seq<int>)
    ensures |r| <= 1
    ensures r != [] <==> Fired(e, timer, next, dt)
  {
    if Fired(e, timer, next, dt) then [Shortfall(pool, d)] else []
  }

  /** The notifications of the first `n` emitters' frames, in emitter order. */
  function FrameShortfalls(emitters: seq<Emitter>, timers: seq<real>, nexts: seq<real>, pools: seq<seq<Particle>>,
                           draws: seq<BurstDraws>, dt: real, n: nat): (r: seq<int>)
    requires n <= |emitters| && n <= |timers| && n <= |nexts| && n <= |pools| && n <= |draws|
    ensures |r| <= n
    ensures r == [] <==> forall k :: 0 <= k < n ==> !Fired(emitters[k], timers[k], nexts[k], dt)
  {
    if n == 0 then []
    else
      FrameShortfalls(emitters, timers, nexts, pools, draws, dt, n - 1)
      + Emitted(emitters[n - 1], timers[n - 1], nexts[n - 1], pools[n - 1], draws[n - 1], dt)
  }

  /** What the emission part of a frame changes: the pools, timers, intervals and the report. */
  datatype Emission = Emission(pools: seq<seq<Particle>>, timers: seq<real>, nexts: seq<real>, count: int, timer: real)

  /** Emitter `s`'s frame, seen on the whole emission state. */
  function EmitterStep(m: Libm, gravity: Vec2, friction: real, attractors: seq<Attractor>,
                       e: Emitter, st: Emission, s: nat, d: BurstDraws, dt: real): (r: Emission)
    requires Editable(e) && s < |st.pools| && s < |st.timers| && s < |st.nexts|
    ensures |r.pools| == |st.pools| && |r.timers| == |st.timers| && |r.nexts| == |st.nexts|
  {
    var timer, next, pool := st.timers[s], st.nexts[s], st.pools[s];
    var shortfalls := Emitted(e, timer, next, pool, d, dt);
    Emission(
      st.pools[s := EmitterPool(m, gravity, friction, attractors, e, timer, next, pool, d, dt)],
      st.timers[s := NextTimer(e, timer, next, dt)],
      st.nexts[s := NextInterval(e, timer, next, d, dt)],
      Reported(st.count, shortfalls),
      Notified(st.count, st.timer, shortfalls))
  }

  /** The emission state after the frames of the first `n` emitters, in emitter order. */
  function FrameEmission(m: Libm, gravity: Vec2, friction: real, attractors: seq<Attractor>,
                         emitters: seq<Emitter>, st: Emission, draws: seq<BurstDraws>, dt: real, n: nat): (r: Emission)
    requires n <= |emitters| && n <= |draws| && n <= |st.pools| && n <= |st.timers| && n <= |st.nexts|
    requires forall k :: 0 <= k < n ==> Editable(emitters[k])
    ensures |r.pools| == |st.pools| && |r.timers| == |st.timers| && |r.nexts| == |st.nexts|
  {
    if n == 0 then st
    else
      EmitterStep(m, gravity, friction, attractors, emitters[n - 1],
        FrameEmission(m, gravity, friction, attractors, emitters, st, draws, dt, n - 1), n - 1, draws[n - 1], dt)
  }

  /** The frames of the first `n` emitters leave the pool, timer and interval of slot `t >= n` alone. */
  lemma {:induction false} FrameEmissionUntouched(m: Libm, gravity: Vec2, friction: real, attractors: seq<Attractor>,
                                                  emitters: seq<Emitter>, st: Emission, draws: seq<BurstDraws>, dt: real, n: nat, t: nat)
    requires n <= |emitters| && n <= |draws| && n <= t < |st.pools| && t < |st.timers| && t < |st.nexts|
    requires forall k :: 0 <= k < n ==> Editable(emitters[k])
    ensures var r := FrameEmission(m, gravity, friction, attractors, emitters, st, draws, dt, n);
      r.pools[t] == st.pools[t] && r.timers[t] == st.timers[t] && r.nexts[t] == st.nexts[t]
  {
    if n > 0 {
      FrameEmissionUntouched(m, gravity, friction, attractors, emitters, st, draws, dt, n - 1, t);
    }
  }

  /** The frames of the first `n` emitters leave slot `t < n` as emitter `t`'s own frame does. */
  lemma {:induction false} FrameEmissionSlot(m: Libm, gravity: Vec2, friction: real, attractors: seq<Attractor>,
                                             emitters: seq<Emitter>, st: Emission, draws: seq<BurstDraws>, dt: real, n: nat, t: nat)
    requires t < n <= |emitters| && n <= |draws| && n <= |st.pools| && n <= |st.timers| && n <= |st.nexts|
    requires forall k :: 0 <= k < n ==> Editable(emitters[k])
    ensures var r := FrameEmission(m, gravity, friction, attractors, emitters, st, draws, dt, n);
      && r.pools[t] == EmitterPool(m, gravity, friction, attractors, emitters[t], st.timers[t], st.nexts[t], st.pools[t], draws[t], dt)
      && r.timers[t] == NextTimer(emitters[t], st.timers[t], st.nexts[t], dt)
      && r.nexts[t] == NextInterval(emitters[t], st.timers[t], st.nexts[t], draws[t], dt)
  {
    if t < n - 1 {
      FrameEmissionSlot(m, gravity, friction, attractors, emitters, st, draws, dt, n - 1, t);
    } else {
      FrameEmissionUntouched(m, gravity, friction, attractors, emitters, st, draws, dt, n - 1, t);
    }
  }

  /**
   * After the frames of the first `n` emitters, each of them has the pool, timer and
   * interval its own frame leaves it, and the later slots are untouched.
   */
  lemma FrameEmissionSlots(m: Libm, gravity: Vec2, friction: real, attractors: seq<Attractor>,
                           emitters: seq<Emitter>, st: Emission, draws: seq<BurstDraws>, dt: real, n: nat)
    requires n <= |emitters| && n <= |draws| && |st.timers| == |st.nexts| == |st.pools| >= n
    requires forall k :: 0 <= k < n ==> Editable(emitters[k])
    ensures var r := FrameEmission(m, gravity, friction, attractors, emitters, st, draws, dt, n);
      forall t :: 0 <= t < |st.pools| ==>
        && r.pools[t] == (if t < n then EmitterPool(m, gravity, friction, attractors, emitters[t],
             st.timers[t], st.nexts[t], st.pools[t], draws[t], dt) else st.pools[t])
        && r.timers[t] == (if t < n then NextTimer(emitters[t], st.timers[t], st.nexts[t], dt) else st.timers[t])
        && r.nexts[t] == (if t < n then NextInterval(emitters[t], st.timers[t], st.nexts[t], draws[t], dt) else st.nexts[t])
  {
    var r := FrameEmission(m, gravity, friction, attractors, emitters, st, draws, dt, n);
    forall t | 0 <= t < |st.pools|
      ensures r.pools[t] == (if t < n then EmitterPool(m, gravity, friction, attractors, emitters[t],
        st.timers[t], st.nexts[t], st.pools[t], draws[t], dt) else st.pools[t])
      ensures r.timers[t] == (if t < n then NextTimer(emitters[t], st.timers[t], st.nexts[t], dt) else st.timers[t])
      ensures r.nexts[t] == (if t < n then NextInterval(emitters[t], st.timers[t], st.nexts[t], draws[t], dt) else st.nexts[t])
    {
      if t < n {
        FrameEmissionSlot(m, gravity, friction, attractors, emitters, st, draws, dt, n, t);
      } else {
        FrameEmissionUntouched(m, gravity, friction, attractors, emitters, st, draws, dt, n, t);
      }
    }
  }

  /**
   * After the frames of the first `n` emitters, the report has received the shortfalls of
   * the emitters that burst, in slot order.
   */
  lemma {:induction false} FrameEmissionReport(m: Libm, gravity: Vec2, friction: real, attractors: seq<Attractor>,
                                               emitters: seq<Emitter>, st: Emission, draws: seq<BurstDraws>, dt: real, n: nat)
    requires n <= |emitters| && n <= |draws| && n <= |st.pools| && n <= |st.timers| && n <= |st.nexts|
    requires forall k :: 0 <= k < n ==> Editable(emitters[k])
    ensures var r := FrameEmission(m, gravity, friction, attractors, emitters, st, draws, dt, n);
      var shortfalls := FrameShortfalls(emitters, st.timers, st.nexts, st.pools, draws, dt, n);
      r.count == Reported(st.count, shortfalls) && r.timer == Notified(st.count, st.timer, shortfalls)
  {
    if n > 0 {
      var k := n - 1;
      FrameEmissionReport(m, gravity, friction, attractors, emitters, st, draws, dt, k);
      FrameEmissionUntouched(m, gravity, friction, attractors, emitters, st, draws, dt, k, k);
      NotificationsCompose(st.count, st.timer, FrameShortfalls(emitters, st.timers, st.nexts, st.pools, draws, dt, k),
        Emitted(emitters[k], st.timers[k], st.nexts[k], st.pools[k], draws[k], dt));
    }
  }

  /** Before its first interval is drawn (it starts at 0), an emitter fires on its first frame. */
  lemma FirstFrameFires(dt: real)
    requires dt >= 0.0
    ensures Fires(0.0 + dt, 0.0)
  {
  }

  // --------------------------------------------------------------- imperative layer

  /**
   * The attractor loop for one particle at `at`: every active attractor adds its capped
   * force times `dt` to the velocity `v`.
   */
  method ApplyAttractors(m: Libm, attractors: seq<Attractor>, at: Vec2, v: Vec2, dt: real) returns (r: Vec2)
    ensures r == PulledVelocity(m, attractors, |attractors|, at, v, dt)
  {
    r := v;
    var a := 0;
    while a < |attractors|
      invariant 0 <= a <= |attractors|
      invariant r == PulledVelocity(m, attractors, a, at, v, dt)
    {
      var attractor := attractors[a];
      if !attractor.active {
        assert AttractorPull(m, attractor, at, dt) == Vec2(0.0, 0.0);
        a := a + 1;
        continue;
      }
      var force := RawForce(m, attractor, at);
      force := CapForce(m, force, attractor.magnitudeCap);
      r := Add2(r, Scale2(force, dt));
      a := a + 1;
    }
  }

  /** The body of the step loop for one slot: gravity, the attractor loop, move, friction, ageing. */
  method StepParticle(m: Libm, gravity: Vec2, friction: real, attractors: seq<Attractor>, p: Particle, dt: real) returns (q: Particle)
    ensures q == SandboxStep(m, gravity, friction, attractors, p, dt)
  {
    q := p.(velocity := WithXy(p.velocity, Add2(Xy3(p.velocity), Scale2(gravity, dt))));
    var v := ApplyAttractors(m, attractors, Xy3(q.position), Xy3(q.velocity), dt);
    q := q.(velocity := WithXy(q.velocity, v));
    q := q.(position := Add3(q.position, Scale3(q.velocity, dt)));
    q := q.(velocity := Scale3(q.velocity, friction));
    q := q.(life := q.life - dt);
    q := q.(color := q.color.(w := Min(q.color.w, q.life)));
    if q.life < 0.0 {
      q := q.(scale := 0.0);
    }
  }

  /** The step loop over every slot of `system`. */
  method StepParticles(system: ParticleSystem, m: Libm, gravity: Vec2, friction: real, attractors: seq<Attractor>, dt: real)
    requires system.Valid()
    modifies system.particles
    ensures system.particles[..] == SteppedPool(m, gravity, friction, attractors, old(system.particles[..]), dt)
  {
    ghost var s := system.particles[..];
    system.StepAll(p => SandboxStep(m, gravity, friction, attractors, p, dt));
    assert system.particles[..] == SteppedPool(m, gravity, friction, attractors, s, dt);
  }

  /**
   * The burst loop: from slot 0, while particles remain to spawn, every dead slot is
   * respawned from the emitter, its colour chosen by the weighted palette loop.
   * Returns the demand left unmet.
   */
  method Burst(system: ParticleSystem, e: Emitter, demand: int, draws: nat -> ParticleDraws) returns (remaining: int)
    requires system.Valid() && Editable(e)
    modifies system.particles
    ensures var n := SpawnCount(demand, CountDead(old(system.particles[..])));
      && system.particles[..] == Respawned(old(system.particles[..]), n, Maker(e, draws))
      && remaining == demand - n
  {
    ghost var s := system.particles[..];
    ghost var make := Maker(e, draws);
    remaining := demand;
    var i := 0;
    while i < system.count && remaining > 0
      invariant 0 <= i <= system.count
      invariant demand <= 0 ==> i == 0
      invariant remaining == demand - Rank(s, i)
      invariant demand > 0 ==> remaining >= 0
      invariant forall j :: 0 <= j < i ==> system.particles[j] == if Dead(s[j]) then make(s[j], Rank(s, j)) else s[j]
      invariant forall j :: i <= j < system.count ==> system.particles[j] == s[j]
    {
      RankStep(s, i);
      var p := system.particles[i];
      if p.life < 0.0 {
        var d := draws(demand - remaining);
        p := p.(position := WithXy(p.position, Add2(e.position, d.offset)));
        p := p.(velocity := WithXy(p.velocity, d.velocity));
        p := p.(life := d.life);
        p := p.(scale := d.size);
        var chosen := ChooseColor(e.colors, e.colorWeights, e.colorCount, d.pick);
        p := p.(color := chosen);
        system.particles[i] := p;
        remaining := remaining - 1;
      }
      i := i + 1;
    }
    RespawnLoopDone(s, demand, i, make, system.particles[..]);
  }

  /** The sandbox's globals: the state, one pool per emitter slot, the timers and the warning. */
  class Sandbox {
    const state: SandboxState
    const systems: seq<ParticleSystem>
    const emissionTimer: array<real>
    const nextInterval: array<real>
    const report: StarvationReport

    ghost predicate Valid()
      reads this, state, state.emitters
    {
      && state.Valid()
      && |systems| == MaxEmitterCount
      && (forall s :: 0 <= s < MaxEmitterCount ==> systems[s].Valid() && systems[s].count == MaxParticlesPerEmitter)
      && (forall s, t :: 0 <= s < t < MaxEmitterCount ==> systems[s].particles != systems[t].particles)
      && emissionTimer.Length == MaxEmitterCount && nextInterval.Length == MaxEmitterCount
      && emissionTimer != nextInterval
    }

    /**
     * `sandbox_init`: `sandbox_state_init`, then a pool of 5000 particles per emitter slot
     * with every slot given scale 0 and life -1. The timers are zero-initialised globals.
     */
    constructor (gravity: Vec2, velocity: Range2)
      ensures Valid()
      ensures state.emitterCount == 1 && state.emitters[0] == EmitterInit(velocity) && state.gravity == gravity
      ensures forall s, i :: 0 <= s < MaxEmitterCount && 0 <= i < MaxParticlesPerEmitter ==>
        systems[s].particles[i] == Killed(ZeroParticle)
      ensures forall s :: 0 <= s < MaxEmitterCount ==> emissionTimer[s] == 0.0 && nextInterval[s] == 0.0
      ensures report.count == 0 && report.timer == 0.0
    {
      state := new SandboxState(gravity, velocity);
      var pools: seq<ParticleSystem> := [];
      var e := 0;
      while e < MaxEmitterCount
        modifies {}
        invariant 0 <= e <= MaxEmitterCount && |pools| == e
        invariant forall s :: 0 <= s < e ==> pools[s].Valid() && pools[s].count == MaxParticlesPerEmitter
        invariant forall s :: 0 <= s < e ==> fresh(pools[s].particles)
        invariant forall s, t :: 0 <= s < t < e ==> pools[s].particles != pools[t].particles
        invariant forall s, i :: 0 <= s < e && 0 <= i < MaxParticlesPerEmitter ==> pools[s].particles[i] == Killed(ZeroParticle)
      {
        var system := new ParticleSystem.Create(MaxParticlesPerEmitter);
        system.KillAll();
        pools := pools + [system];
        e := e + 1;
      }
      systems := pools;
      emissionTimer := new real[MaxEmitterCount](_ => 0.0);
      nextInterval := new real[MaxEmitterCount](_ => 0.0);
      report := new StarvationReport();
    }

    /** The pools of the first `n` emitter slots, in slot order. */
    ghost function Pools(n: nat): (r: seq<seq<Particle>>)
      requires n <= |systems|
      reads set s | 0 <= s < |systems| :: systems[s].particles
      ensures |r| == n && forall s :: 0 <= s < n ==> r[s] == systems[s].particles[..]
    {
      if n == 0 then [] else Pools(n - 1) + [systems[n - 1].particles[..]]
    }

    /** The sandbox's emission state. */
    ghost function Status(): Emission
      reads this, emissionTimer, nextInterval, report
      reads set s | 0 <= s < |systems| :: systems[s].particles
    {
      Emission(Pools(|systems|), emissionTimer[..], nextInterval[..], report.count, report.timer)
    }

    /**
     * Emitter `s`'s part of `sandbox_frame`: an inactive emitter is skipped; otherwise the
     * timer advances, a due burst spawns, reports its shortfall and draws the next interval,
     * and every slot is stepped. Seen on the whole emission state, this is `EmitterStep`: no
     * other emitter's pool, timer or interval changes.
     */
    method EmitterFrame(m: Libm, gravity: Vec2, friction: real, attractors: seq<Attractor>, s: nat, d: BurstDraws, dt: real)
      requires Valid() && s < state.emitterCount
      modifies systems[s].particles, emissionTimer, nextInterval, report
      ensures Valid()
      ensures Status() == EmitterStep(m, gravity, friction, attractors, state.emitters[s], old(Status()), s, d, dt)
    {
      RunEmitter(m, gravity, friction, attractors, s, d, dt);
    }

    /**
     * The work of `EmitterFrame` on slot `s`: its pool becomes `EmitterPool`, its timer and
     * interval `NextTimer` and `NextInterval`, and the report receives `Emitted`.
     */
    method RunEmitter(m: Libm, gravity: Vec2, friction: real, attractors: seq<Attractor>, s: nat, d: BurstDraws, dt: real)
      requires Valid() && s < state.emitterCount
      modifies systems[s].particles, emissionTimer, nextInterval, report
      ensures Valid()
      ensures var e := state.emitters[s];
        systems[s].particles[..] == EmitterPool(m, gravity, friction, attractors, e,
          old(emissionTimer[s]), old(nextInterval[s]), old(systems[s].particles[..]), d, dt)
      ensures var e, timer, next := state.emitters[s], old(emissionTimer[s]), old(nextInterval[s]);
        && emissionTimer[..] == old(emissionTimer[..])[s := NextTimer(e, timer, next, dt)]
        && nextInterval[..] == old(nextInterval[..])[s := NextInterval(e, timer, next, d, dt)]
      ensures var shortfalls := Emitted(state.emitters[s], old(emissionTimer[s]), old(nextInterval[s]), old(systems[s].particles[..]), d, dt);
        report.count == Reported(old(report.count), shortfalls) && report.timer == Notified(old(report.count), old(report.timer), shortfalls)
      ensures Pools(|systems|) == old(Pools(|systems|))[s := systems[s].particles[..]]
    {
      if state.emitters[s].active {
        var fired := Emit(s, d, dt);
        StepParticles(systems[s], m, gravity, friction, attractors, dt);
      }
      forall t | 0 <= t < |systems| && t != s
        ensures systems[t].particles[..] == old(systems[t].particles[..])
      {
        assert systems[t].particles != systems[s].particles;
      }
    }

    /**
     * The emission half of an active emitter's frame: the timer advances; when it fires, a
     * burst spawns, its shortfall is reported, the next interval is drawn and the timer
     * restarts.
     */
    method Emit(s: nat, d: BurstDraws, dt: real) returns (fired: bool)
      requires Valid() && s < state.emitterCount && state.emitters[s].active
      modifies systems[s].particles, emissionTimer, nextInterval, report
      ensures fired == Fires(old(emissionTimer[s]) + dt, old(nextInterval[s]))
      ensures systems[s].particles[..] ==
        if fired then BurstPool(state.emitters[s], old(systems[s].particles[..]), d) else old(systems[s].particles[..])
      ensures emissionTimer[..] == old(emissionTimer[..])[s := if fired then 0.0 else old(emissionTimer[s]) + dt]
      ensures nextInterval[..] == old(nextInterval[..])[s := if fired then d.interval else old(nextInterval[s])]
      ensures report.count == old(report.count) + (if fired then Shortfall(old(systems[s].particles[..]), d) else 0)
      ensures fired && report.count != 0 ==> report.timer == 1.0
      ensures !fired || report.count == 0 ==> report.timer == old(report.timer)
    {
      var system := systems[s];
      var e := state.emitters[s];
      emissionTimer[s] := emissionTimer[s] + dt;
      fired := nextInterval[s] < 0.0 || emissionTimer[s] >= nextInterval[s];
      if fired {
        var remaining := Burst(system, e, Truncate(d.amount), d.particles);
        report.Notify(remaining);
        nextInterval[s] := d.interval;
        emissionTimer[s] := 0.0;
      }
    }

    /**
     * `sandbox_frame` without its drawing: a snapshot of the physics, then each emitter in
     * use, in order, with its own draws. The whole emission state (every pool, timer and
     * interval, and the starvation report) becomes `FrameEmission` of the old one, which
     * `FrameEmissionSlots` and `FrameEmissionReport`
     * spell out slot by slot.
     */
    method Frame(m: Libm, draws: seq<BurstDraws>, dt: real)
      requires Valid() && |draws| == MaxEmitterCount
      modifies set s | 0 <= s < |systems| :: systems[s].particles
      modifies emissionTimer, nextInterval, report
      ensures Valid()
      ensures Status() == FrameEmission(m, state.gravity, state.friction, state.attractors[..state.attractorCount],
        state.emitters[..], old(Status()), draws, dt, state.emitterCount)
    {
      var gravity := state.gravity;
      var friction := state.friction;
      var attractors := state.attractors[..state.attractorCount];
      ghost var emitters, start := state.emitters[..], Status();
      ghost var status := start;
      var s := 0;
      while s < state.emitterCount
        invariant Valid()
        invariant 0 <= s <= state.emitterCount
        invariant forall k :: 0 <= k < state.emitterCount ==> Editable(emitters[k])
        invariant |start.pools| == |start.timers| == |start.nexts| == MaxEmitterCount
        invariant status == FrameEmission(m, gravity, friction, attractors, emitters, start, draws, dt, s)
        invariant Status() == status
      {
        assert state.emitters[s] == emitters[s];
        EmitterFrame(m, gravity, friction, attractors, s, draws[s], dt);
        status := EmitterStep(m, gravity, friction, attractors, emitters[s], status, s, draws[s], dt);
        s := s + 1;
      }
    }
  }
}
