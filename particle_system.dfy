// The fixed-capacity particle pool and its slot reuse.
//
// `particle_system_create` and `particle_system_upload_and_render`
// (implementation/backend_opengl.cpp) make and draw a pool; the examples reuse its dead
// slots: a burst (example/code/sandbox.cpp, example/code/example_sandbox.cpp,
// example/code/firework.cpp) respawns into the first dead slots up to a demand, and the
// waterfall (example/code/waterfall.cpp) spends a fractional accumulator one particle at a time.

module ParticleSystems {
  import opened Vectors
  import opened Particles

  /** `sizeof(Particle)`: twelve 4-byte floats. */
  const ParticleBytes: nat := 48
  const Uint32Modulus: nat := 0x1_0000_0000

  // --------------------------------------------------------- dead-slot counting

  /** The number of dead slots in `s`. */
  function CountDead(s: seq<Particle>): (n: nat)
    ensures n <= |s|
  {
    if s == [] then 0 else CountDead(s[..|s| - 1]) + (if Dead(s[|s| - 1]) then 1 else 0)
  }

  /** The rank of slot `j` among the dead slots: how many dead slots come before it. */
  function Rank(s: seq<Particle>, j: nat): nat
    requires j <= |s|
  {
    CountDead(s[..j])
  }

  lemma RankStep(s: seq<Particle>, j: nat)
    requires j < |s|
    ensures Rank(s, j + 1) == Rank(s, j) + (if Dead(s[j]) then 1 else 0)
  {
    assert s[..j + 1][..j] == s[..j];
  }

  lemma RankAll(s: seq<Particle>)
    ensures Rank(s, |s|) == CountDead(s)
  {
    assert s[..|s|] == s;
  }

  /** Ranks never decrease along the array. */
  lemma {:induction false} RankMonotone(s: seq<Particle>, i: nat, j: nat)
    requires i <= j <= |s|
    ensures Rank(s, i) <= Rank(s, j)
    decreases j - i
  {
    if i < j {
      RankStep(s, j - 1);
      RankMonotone(s, i, j - 1);
    }
  }

  /** A dead slot ranks strictly below every later slot: dead slots have distinct ranks. */
  lemma {:induction false} RankIncreases(s: seq<Particle>, i: nat, j: nat)
    requires i < j <= |s| && Dead(s[i])
    ensures Rank(s, i) < Rank(s, j)
  {
    RankStep(s, i);
    RankMonotone(s, i + 1, j);
  }

  /**
   * The C conversion of a float to `int`, which truncates toward zero: how a sampled
   * amount becomes a whole number of particles to spawn.
   */
  function Truncate(x: real): (n: int)
    ensures x >= 0.0 ==> n >= 0 && n as real <= x < n as real + 1.0
    ensures x < 0.0 ==> n <= 0 && n as real - 1.0 < x <= n as real
  {
    if x >= 0.0 then x.Floor else -((-x).Floor)
  }

  /** The number of particles a demand of `demand` spawns when `dead` slots are free. */
  function SpawnCount(demand: int, dead: nat): (n: nat)
    ensures n <= dead
    ensures demand <= 0 ==> n == 0
    ensures demand > 0 ==> n <= demand
    ensures n < demand ==> n == dead
    ensures demand > 0 && demand <= dead ==> n == demand
  {
    if demand <= 0 then 0 else if demand < dead then demand else dead
  }

  /**
   * The pool after `n` spawns: the dead slot of rank k < n is replaced by `make(old, k)`,
   * the k-th particle spawned; every other slot is kept.
   */
  function Respawned(s: seq<Particle>, n: nat, make: (Particle, nat) -> Particle): (r: seq<Particle>)
    ensures |r| == |s|
    ensures forall j :: 0 <= j < |s| && !Dead(s[j]) ==> r[j] == s[j]
    ensures forall j :: 0 <= j < |s| && r[j] != s[j] ==> Dead(s[j]) && Rank(s, j) < n
  {
    seq(|s|, j requires 0 <= j < |s| => if Dead(s[j]) && Rank(s, j) < n then make(s[j], Rank(s, j)) else s[j])
  }

  /**
   * The slots a burst respawns are the first dead slots in index order: if a dead slot is
   * respawned, so is every dead slot before it.
   */
  lemma {:induction false} RespawnedInIndexOrder(s: seq<Particle>, n: nat, i: nat, j: nat)
    requires i < j < |s| && Dead(s[i]) && Dead(s[j]) && Rank(s, j) < n
    ensures Rank(s, i) < n
  {
    RankIncreases(s, i, j);
  }

  /**
   * When every dead slot is spent (`n` is the number of dead slots), every dead slot has been
   * respawned: a burst that leaves demand unmet has scanned the whole pool.
   */
  lemma {:induction false} AllDeadRespawned(s: seq<Particle>, j: nat)
    requires j < |s| && Dead(s[j])
    ensures Rank(s, j) < CountDead(s)
  {
    RankIncreases(s, j, |s|);
    RankAll(s);
  }

  /** The index of the dead slot of rank `k`. */
  function KthDead(s: seq<Particle>, k: nat): (j: nat)
    requires k < CountDead(s)
    ensures j < |s| && Dead(s[j]) && Rank(s, j) == k
  {
    var last := |s| - 1;
    RankStep(s, last);
    RankAll(s);
    if Dead(s[last]) && k == CountDead(s) - 1 then
      last
    else
      var j := KthDead(s[..last], k);
      assert s[..last][..j] == s[..j];
      j
  }

  /**
   * `n` spawns fill exactly the first `n` dead slots: the n-th dead slot and every dead slot
   * before it, and no dead slot after it.
   */
  lemma {:induction false} RespawnedAreFirstDead(s: seq<Particle>, n: nat, j: nat)
    requires 0 < n <= CountDead(s)
    requires j < |s| && Dead(s[j])
    ensures Rank(s, j) < n <==> j <= KthDead(s, n - 1)
  {
    var last := KthDead(s, n - 1);
    if j < last {
      RankIncreases(s, j, last);
    } else if last < j {
      RankIncreases(s, last, j);
    }
  }

  /**
   * When every particle a burst makes is alive, the burst lowers the number of dead slots
   * by exactly the number of particles it spawned.
   */
  lemma {:induction false} RespawnedDeadCount(s: seq<Particle>, n: nat, make: (Particle, nat) -> Particle)
    requires n <= CountDead(s)
    requires forall j :: 0 <= j < |s| && Dead(s[j]) && Rank(s, j) < n ==> !Dead(make(s[j], Rank(s, j)))
    ensures CountDead(Respawned(s, n, make)) == CountDead(s) - n
  {
    var r := Respawned(s, n, make);
    RespawnedPrefixDeadCount(s, n, make, |s|);
    assert r[..|s|] == r;
    RankAll(s);
  }

  lemma {:induction false} RespawnedPrefixDeadCount(s: seq<Particle>, n: nat, make: (Particle, nat) -> Particle, j: nat)
    requires j <= |s|
    requires forall i :: 0 <= i < |s| && Dead(s[i]) && Rank(s, i) < n ==> !Dead(make(s[i], Rank(s, i)))
    ensures CountDead(Respawned(s, n, make)[..j]) == Rank(s, j) - (if Rank(s, j) < n then Rank(s, j) else n)
  {
    if j > 0 {
      var r := Respawned(s, n, make);
      RespawnedPrefixDeadCount(s, n, make, j - 1);
      RankStep(s, j - 1);
      assert r[..j][..j - 1] == r[..j - 1];
    }
  }

  // ------------------------------------------------------------------- the pool

  /** `ParticleSystem`: `count` particles in one array, mirrored by a GPU instance buffer. */
  class ParticleSystem {
    const count: nat
    const particles: array<Particle>
    /** Size in bytes of the instance buffer made at creation (a `uint32_t`). */
    const bufferBytes: nat

    ghost predicate Valid()
    {
      particles.Length == count && count < Uint32Modulus
    }

    /**
     * `particle_system_create`: every slot zeroed, then marked dead with life -1; the
     * instance buffer has `count * sizeof(Particle)` bytes, computed in 32 bits.
     */
    constructor Create(particleCount: nat)
      requires particleCount < Uint32Modulus
      ensures Valid() && count == particleCount && fresh(particles)
      ensures bufferBytes == (particleCount * ParticleBytes) % Uint32Modulus
      ensures forall i :: 0 <= i < count ==> particles[i] == Killed(ZeroParticle)
    {
      var a := new Particle[particleCount](_ => ZeroParticle);
      var i := 0;
      while i < particleCount
        invariant 0 <= i <= particleCount
        invariant forall j :: 0 <= j < i ==> a[j] == Killed(ZeroParticle)
        invariant forall j :: i <= j < particleCount ==> a[j] == ZeroParticle
      {
        a[i] := a[i].(life := -1.0);
        i := i + 1;
      }
      count := particleCount;
      particles := a;
      bufferBytes := (particleCount * ParticleBytes) % Uint32Modulus;
    }

    /**
     * `particle_system_upload_and_render`: uploads `count * sizeof(Particle)` bytes (in 32
     * bits) and draws `count` instances, dead slots included.
     */
    method UploadAndRender() returns (bytes: nat, instances: nat, uploaded: seq<Particle>)
      requires Valid()
      ensures bytes == (count * ParticleBytes) % Uint32Modulus
      ensures instances == count && uploaded == particles[..]
    {
      bytes := (count * ParticleBytes) % Uint32Modulus;
      instances := count;
      uploaded := particles[..];
    }

    /** The init loops of the examples: every slot gets scale 0 and life -1. */
    method KillAll()
      requires Valid()
      modifies particles
      ensures forall i :: 0 <= i < count ==> particles[i] == Killed(old(particles[i]))
    {
      var i := 0;
      while i < count
        invariant 0 <= i <= count
        invariant forall j :: 0 <= j < i ==> particles[j] == Killed(old(particles[j]))
        invariant forall j :: i <= j < count ==> particles[j] == old(particles[j])
      {
        particles[i] := particles[i].(scale := 0.0, life := -1.0);
        i := i + 1;
      }
    }

    /** A step loop: every slot is replaced by `step` of itself. */
    method StepAll(step: Particle -> Particle)
      requires Valid()
      modifies particles
      ensures forall i :: 0 <= i < count ==> particles[i] == step(old(particles[i]))
    {
      var i := 0;
      while i < count
        invariant 0 <= i <= count
        invariant forall j :: 0 <= j < i ==> particles[j] == step(old(particles[j]))
        invariant forall j :: i <= j < count ==> particles[j] == old(particles[j])
      {
        particles[i] := step(particles[i]);
        i := i + 1;
      }
    }

    /**
     * A burst scan: from slot 0, while demand remains, every dead slot is respawned with
     * `make(old slot, spawn number)` and the demand drops by one. Returns the unmet demand.
     */
    method Respawn(demand: int, make: (Particle, nat) -> Particle) returns (remaining: int)
      requires Valid()
      modifies particles
      ensures var n := SpawnCount(demand, CountDead(old(particles[..])));
        && particles[..] == Respawned(old(particles[..]), n, make)
        && remaining == demand - n
    {
      ghost var s := particles[..];
      ghost var n := SpawnCount(demand, CountDead(s));
      remaining := demand;
      var i := 0;
      while i < count && remaining > 0
        invariant 0 <= i <= count
        invariant demand <= 0 ==> i == 0
        invariant remaining == demand - Rank(s, i)
        invariant demand > 0 ==> remaining >= 0
        invariant forall j :: 0 <= j < i ==> particles[j] == if Dead(s[j]) then make(s[j], Rank(s, j)) else s[j]
        invariant forall j :: i <= j < count ==> particles[j] == s[j]
      {
        RankStep(s, i);
        if particles[i].life < 0.0 {
          particles[i] := make(particles[i], demand - remaining);
          remaining := remaining - 1;
        }
        i := i + 1;
      }
      RespawnLoopDone(s, demand, i, make, particles[..]);
    }

    /**
     * The waterfall scan: while at least one whole particle is owed, every dead slot is
     * respawned and the owed amount drops by one. Returns what is still owed.
     */
    method RespawnAccumulated(owed: real, make: (Particle, nat) -> Particle) returns (left: real)
      requires Valid()
      modifies particles
      ensures var n := SpawnCount(owed.Floor, CountDead(old(particles[..])));
        && particles[..] == Respawned(old(particles[..]), n, make)
        && left == owed - n as real
    {
      ghost var s := particles[..];
      left := owed;
      var spawned := 0;
      var i := 0;
      while i < count && left >= 1.0
        invariant 0 <= i <= count
        invariant owed < 1.0 ==> i == 0
        invariant spawned == Rank(s, i)
        invariant left == owed - spawned as real
        invariant owed >= 1.0 ==> spawned <= owed.Floor
        invariant forall j :: 0 <= j < i ==> particles[j] == if Dead(s[j]) then make(s[j], Rank(s, j)) else s[j]
        invariant forall j :: i <= j < count ==> particles[j] == s[j]
      {
        RankStep(s, i);
        if particles[i].life < 0.0 {
          particles[i] := make(particles[i], spawned);
          left := left - 1.0;
          spawned := spawned + 1;
        }
        i := i + 1;
      }
      if i < count && owed >= 1.0 {
        assert owed.Floor as real <= owed < owed.Floor as real + 1.0;
        assert spawned == owed.Floor;
      }
      RespawnLoopDone(s, owed.Floor, i, make, particles[..]);
    }
  }

  /**
   * What both scans leave behind: slots before `i` are respawned if dead, later ones kept;
   * the scan ended at the end of the pool or with the demand met.
   */
  lemma {:induction false} RespawnLoopDone(s: seq<Particle>, demand: int, i: nat, make: (Particle, nat) -> Particle, r: seq<Particle>)
    requires i <= |s| == |r|
    requires demand <= 0 ==> i == 0
    requires demand > 0 ==> Rank(s, i) <= demand
    requires i < |s| ==> Rank(s, i) == demand || demand <= 0
    requires forall j :: 0 <= j < i ==> r[j] == if Dead(s[j]) then make(s[j], Rank(s, j)) else s[j]
    requires forall j :: i <= j < |s| ==> r[j] == s[j]
    ensures r == Respawned(s, SpawnCount(demand, CountDead(s)), make)
    ensures Rank(s, i) == SpawnCount(demand, CountDead(s))
  {
    var n := SpawnCount(demand, CountDead(s));
    var t := Respawned(s, n, make);
    RankMonotone(s, i, |s|);
    RankAll(s);
    assert Rank(s, i) <= n;
    forall j | 0 <= j < |s|
      ensures r[j] == t[j]
    {
      if j < i {
        if Dead(s[j]) {
          RankIncreases(s, j, i);
        }
      } else {
        RankMonotone(s, i, j);
      }
    }
  }

  /** A burst leaves demand unmet only when it has respawned every dead slot of the pool. */
  lemma {:induction false} UnmetDemandMeansFullScan(s: seq<Particle>, demand: int, make: (Particle, nat) -> Particle, j: nat)
    requires demand - SpawnCount(demand, CountDead(s)) > 0
    requires j < |s| && Dead(s[j])
    ensures Respawned(s, SpawnCount(demand, CountDead(s)), make)[j] == make(s[j], Rank(s, j))
  {
    AllDeadRespawned(s, j);
  }

  /** A creation size below 2^32 / 48 gives a buffer of exactly `count * 48` bytes. */
  lemma BufferSizeExact(count: nat)
    requires count * ParticleBytes < Uint32Modulus
    ensures (count * ParticleBytes) % Uint32Modulus == count * ParticleBytes
  {
  }
}
