// The sandbox's editable state (example/code/sandbox.h and the copy of the same structs at
// the top of example/code/example_sandbox.cpp): up to 8 emitters, each with a palette of up to
// 16 weighted colours, up to 8 attractors, gravity and friction; its initialisation; and
// the editor panel's add and delete buttons, which keep each list packed at the front of
// its fixed-size array with `array_ordered_remove`.

module SandboxStates {
  import opened Vectors
  import opened MathLib
  import opened Sampling
  import opened Particles

  const SerializationVersion: int := 1
  const MaxEmitterCount: nat := 8
  const MaxColorCount: nat := 16
  const MaxAttractorCount: nat := 8
  const MaxParticlesPerEmitter: nat := 5000

  /** `Range1`: a scalar interval, sampled by `random_get1`. */
  datatype Range1 = Range1(min: real, max: real)

  /**
   * `Range2`: a 2-D interval in Cartesian or polar coordinates (`coords`), sampled by
   * `random_get2`. The sampler is not part of this model; the fields are carried as they are.
   */
  datatype Range2 = Range2(coords: int, min: Vec2, max: Vec2)

  datatype Emitter = Emitter(
    active: bool,
    position: Vec2,
    emissionInterval: Range1,
    particlesPerEmission: Range1,
    meshIndex: int,
    textureIndex: int,
    offset: Range2,
    velocity: Range2,
    size: Range1,
    life: Range1,
    colorCount: int,
    colors: seq<Vec4>,
    colorWeights: seq<real>)

  const Origin := Vec2(0.0, 0.0)
  const Transparent := Vec4(0.0, 0.0, 0.0, 0.0)
  const White := Vec4(1.0, 1.0, 1.0, 1.0)

  /** An emitter after `memset(emitter, 0, sizeof(Emitter))`. */
  const ZeroEmitter := Emitter(
    false, Origin, Range1(0.0, 0.0), Range1(0.0, 0.0), 0, 0,
    Range2(0, Origin, Origin), Range2(0, Origin, Origin), Range1(0.0, 0.0), Range1(0.0, 0.0),
    0, seq(MaxColorCount, _ => Transparent), seq(MaxColorCount, _ => 0.0))

  /** An attractor after `memset`: inactive, linear (the enumerator 0), all numbers zero. */
  const ZeroAttractor := Attractor(false, Origin, Linear, 0.0, 0.0, 0.0)

  /** The palette arrays have their fixed size of 16. */
  ghost predicate WellFormed(e: Emitter)
  {
    |e.colors| == MaxColorCount && |e.colorWeights| == MaxColorCount
  }

  /** What the editor keeps true of an emitter in use: between 1 and 16 colours. */
  ghost predicate Editable(e: Emitter)
  {
    WellFormed(e) && 1 <= e.colorCount <= MaxColorCount
  }

  /**
   * `emitter_init`: an active emitter firing 0 to 10 particles every second, size 0.5,
   * life 1 and a single white colour of weight 1. The velocity range comes from
   * `range_polar(0, 1, 0, TAU)`, which is not part of this model and is passed in.
   */
  function EmitterInit(velocity: Range2): (e: Emitter)
    ensures Editable(e) && e.active && e.colorCount == 1
    ensures e.colors[0] == White && e.colorWeights[0] == 1.0
    ensures e.velocity == velocity
    ensures forall i :: 1 <= i < MaxColorCount ==> e.colors[i] == Transparent && e.colorWeights[i] == 0.0
  {
    Emitter(
      true, Origin, Range1(1.0, 1.0), Range1(0.0, 10.0), 0, 0,
      Range2(0, Origin, Origin), velocity, Range1(0.5, 0.5), Range1(1.0, 1.0),
      1,
      seq(MaxColorCount, i => if i == 0 then White else Transparent),
      seq(MaxColorCount, i => if i == 0 then 1.0 else 0.0))
  }

  /**
   * A new emitter's particles are white, except when the uniform draw is exactly 1: the
   * threshold then equals the total weight, no colour is above it, and the colour stays
   * the zero-initialised `chosen_color`.
   */
  lemma {:induction false} InitialEmitterColor(velocity: Range2, u: Unit)
    ensures var e := EmitterInit(velocity);
      PickedColor(e.colors[..e.colorCount], e.colorWeights[..e.colorCount], u)
        == if u < 1.0 then White else Transparent
  {
    var e := EmitterInit(velocity);
    var w := e.colorWeights[..1];
    assert w == [1.0];
    assert Sum(w) == 1.0 by {
      assert w[..0] == [];
    }
    if u < 1.0 {
      PickSucceeds(w, u);
      PickHasPositiveWeight(w, Threshold(Sum(w), u));
    } else {
      assert NonNegative(w);
      PickFailsAtTotal(w, u);
    }
  }

  /** `attractor_init`: an active linear attractor of radius 0.5, factor 1 and cap 10. */
  const DefaultAttractor := Attractor(true, Origin, Linear, 0.5, 1.0, 10.0)

  /**
   * The gravity `physics_init` sets in example/code/sandbox.cpp: `polar(0.001, -TAU / 4)`, a
   * pull of 0.001 (TAU is taken as 2 pi).
   */
  function SandboxGravity(m: Libm): Vec2
  {
    PolarPoint(m, 0.001, -(2.0 * m.pi) / 4.0)
  }

  /** The sandbox's initial gravity has strength 0.001. */
  lemma SandboxGravityStrength(m: Libm)
    requires Lawful(m)
    ensures Norm(m, SandboxGravity(m)) == 0.001
  {
    PolarPointLength(m, 0.001, -(2.0 * m.pi) / 4.0);
  }

  // ---------------------------------------------------------- array_ordered_remove

  /**
   * The first `count` entries of `s` with the one at `index` taken out and the rest moved
   * down by one; the entry at `count - 1` stays as it was (it is no longer counted).
   */
  function OrderedRemoved<T>(s: seq<T>, count: int, index: int): (r: seq<T>)
    requires 0 <= index < count <= |s|
    ensures |r| == |s|
    ensures forall j :: 0 <= j < |s| ==> r[j] == if index <= j < count - 1 then s[j + 1] else s[j]
  {
    s[..index] + s[index + 1..count] + s[count - 1..]
  }

  /**
   * Removing keeps the order and every other counted entry: the entries still counted are
   * those that were counted, less one occurrence of the removed one.
   */
  lemma {:induction false} OrderedRemovedKeepsOthers<T>(s: seq<T>, count: int, index: int)
    requires 0 <= index < count <= |s|
    ensures OrderedRemoved(s, count, index)[..count - 1] == s[..index] + s[index + 1..count]
    ensures multiset(OrderedRemoved(s, count, index)[..count - 1]) == multiset(s[..count]) - multiset{s[index]}
  {
    var r := OrderedRemoved(s, count, index);
    assert r[..count - 1] == s[..index] + s[index + 1..count];
    assert s[..count] == s[..index] + [s[index]] + s[index + 1..count];
    assert multiset(s[..count]) == multiset(s[..index]) + multiset{s[index]} + multiset(s[index + 1..count]);
  }

  /** `array_ordered_remove<T>`: shifts `a[index + 1..count]` down by one and returns `count - 1`. */
  method ArrayOrderedRemove<T>(a: array<T>, count: int, index: int) returns (newCount: int)
    requires 0 <= index < count <= a.Length
    modifies a
    ensures a[..] == OrderedRemoved(old(a[..]), count, index)
    ensures newCount == count - 1
  {
    ghost var s := a[..];
    var i := index;
    while i < count - 1
      invariant index <= i <= count - 1
      invariant forall j :: 0 <= j < index ==> a[j] == s[j]
      invariant forall j :: index <= j < i ==> a[j] == s[j + 1]
      invariant forall j :: i <= j < a.Length ==> a[j] == s[j]
    {
      a[i] := a[i + 1];
      i := i + 1;
    }
    assert forall j :: 0 <= j < a.Length ==> a[..][j] == OrderedRemoved(s, count, index)[j];
    newCount := count - 1;
  }

  // ---------------------------------------------------------- palette edits

  /**
   * "+ New color": the last colour is duplicated with weight 1. Every other field of the
   * emitter stays as it was.
   */
  function WithColorAdded(e: Emitter): (r: Emitter)
    requires Editable(e) && e.colorCount < MaxColorCount
    ensures Editable(r) && r.colorCount == e.colorCount + 1
    ensures r.colors[..e.colorCount] == e.colors[..e.colorCount]
    ensures r.colorWeights[..e.colorCount] == e.colorWeights[..e.colorCount]
    ensures r.colors[e.colorCount] == e.colors[e.colorCount - 1] && r.colorWeights[e.colorCount] == 1.0
    ensures r.(colorCount := e.colorCount, colors := e.colors, colorWeights := e.colorWeights) == e
  {
    var n := e.colorCount;
    e.(colors := e.colors[n := e.colors[n - 1]], colorWeights := e.colorWeights[n := 1.0], colorCount := n + 1)
  }

  /**
   * The " - " button of colour `i` (never the first): the colours are removed with the
   * count, the count is put back (the `#hack`), and the weights are removed with it, so
   * every remaining colour keeps its own weight.
   */
  function WithColorRemoved(e: Emitter, i: int): (r: Emitter)
    requires Editable(e) && 1 <= i < e.colorCount
    ensures Editable(r) && r.colorCount == e.colorCount - 1
    ensures forall j :: 0 <= j < r.colorCount ==>
      var k := if j < i then j else j + 1;
      r.colors[j] == e.colors[k] && r.colorWeights[j] == e.colorWeights[k]
    ensures r.(colorCount := e.colorCount, colors := e.colors, colorWeights := e.colorWeights) == e
  {
    var colors := OrderedRemoved(e.colors, e.colorCount, i);
    var count := e.colorCount - 1;
    var restored := count + 1;
    var weights := OrderedRemoved(e.colorWeights, restored, i);
    e.(colors := colors, colorWeights := weights, colorCount := restored - 1)
  }

  /** Deleting a colour right after adding it gives back the palette in use before. */
  lemma {:induction false} AddThenRemoveColor(e: Emitter)
    requires Editable(e) && e.colorCount < MaxColorCount
    ensures var r := WithColorRemoved(WithColorAdded(e), e.colorCount);
      && r.colorCount == e.colorCount
      && r.colors[..e.colorCount] == e.colors[..e.colorCount]
      && r.colorWeights[..e.colorCount] == e.colorWeights[..e.colorCount]
  {
    var a := WithColorAdded(e);
    var r := WithColorRemoved(a, e.colorCount);
    forall j | 0 <= j < e.colorCount
      ensures r.colors[j] == e.colors[j] && r.colorWeights[j] == e.colorWeights[j]
    {
      assert a.colors[j] == a.colors[..e.colorCount][j];
      assert a.colorWeights[j] == a.colorWeights[..e.colorCount][j];
    }
  }

  // ---------------------------------------------------------- the state

  /** `SandboxState`, with `Physics` flattened into it. */
  class SandboxState {
    var version: int
    var spaceWidth: real
    var spaceHeight: real
    var gravity: Vec2
    var friction: real
    var attractorCount: int
    const attractors: array<Attractor>
    var emitterCount: int
    const emitters: array<Emitter>

    /** What the editor keeps true: both lists within their arrays and at least one emitter. */
    ghost predicate Valid()
      reads this, emitters
    {
      && attractors.Length == MaxAttractorCount
      && emitters.Length == MaxEmitterCount
      && 0 <= attractorCount <= MaxAttractorCount
      && 1 <= emitterCount <= MaxEmitterCount
      && (forall s :: 0 <= s < MaxEmitterCount ==> WellFormed(emitters[s]))
      && (forall s :: 0 <= s < emitterCount ==> Editable(emitters[s]))
    }

    /** The global `state`, initialised by `sandbox_state_init`. */
    constructor (gravity: Vec2, velocity: Range2)
      ensures Valid() && fresh(attractors) && fresh(emitters)
      ensures this.gravity == gravity && emitterCount == 1 && emitters[0] == EmitterInit(velocity)
    {
      attractors := new Attractor[MaxAttractorCount](_ => ZeroAttractor);
      emitters := new Emitter[MaxEmitterCount](_ => ZeroEmitter);
      new;
      Reset(gravity, velocity);
    }

    /**
     * `sandbox_state_init`: everything zeroed, then version 1, a 16 by 9 space, gravity and
     * friction 1, no attractor, and one emitter from `emitter_init`. The gravity is
     * `polar(0.001, -TAU / 4)` in example/code/sandbox.cpp (see `SandboxGravity`) and zero
     * in example/code/example_sandbox.cpp.
     */
    method Reset(gravity: Vec2, velocity: Range2)
      modifies this, attractors, emitters
      requires attractors.Length == MaxAttractorCount && emitters.Length == MaxEmitterCount
      ensures Valid()
      ensures version == SerializationVersion && spaceWidth == 16.0 && spaceHeight == 9.0
      ensures this.gravity == gravity && friction == 1.0
      ensures attractorCount == 0 && forall j :: 0 <= j < MaxAttractorCount ==> attractors[j] == ZeroAttractor
      ensures emitterCount == 1 && emitters[0] == EmitterInit(velocity)
      ensures forall s :: 1 <= s < MaxEmitterCount ==> emitters[s] == ZeroEmitter
    {
      var i := 0;
      while i < MaxAttractorCount
        modifies attractors
        invariant 0 <= i <= MaxAttractorCount
        invariant forall j :: 0 <= j < i ==> attractors[j] == ZeroAttractor
      {
        attractors[i] := ZeroAttractor;
        i := i + 1;
      }
      i := 0;
      while i < MaxEmitterCount
        modifies emitters
        invariant 0 <= i <= MaxEmitterCount
        invariant forall j :: 0 <= j < i ==> emitters[j] == ZeroEmitter
      {
        emitters[i] := ZeroEmitter;
        i := i + 1;
      }
      version := SerializationVersion;
      spaceWidth := 16.0;
      spaceHeight := 9.0;
      this.gravity := gravity;
      friction := 1.0;
      attractorCount := 0;
      emitterCount := 1;
      emitters[0] := EmitterInit(velocity);
    }

    /** "+ New attractor": duplicates the last attractor, or adds `DefaultAttractor` to an empty list. */
    method AddAttractor()
      requires Valid() && attractorCount < MaxAttractorCount
      modifies this`attractorCount, attractors
      ensures Valid() && attractorCount == old(attractorCount) + 1
      ensures attractors[..] == old(attractors[..])[old(attractorCount) :=
        if old(attractorCount) > 0 then old(attractors[attractorCount - 1]) else DefaultAttractor]
    {
      if attractorCount > 0 {
        attractors[attractorCount] := attractors[attractorCount - 1];
      } else {
        attractors[attractorCount] := DefaultAttractor;
      }
      attractorCount := attractorCount + 1;
    }

    /** The "Delete" button of attractor `index`. */
    method DeleteAttractor(index: int)
      requires Valid() && 0 <= index < attractorCount
      modifies this`attractorCount, attractors
      ensures Valid() && attractorCount == old(attractorCount) - 1
      ensures attractors[..] == OrderedRemoved(old(attractors[..]), old(attractorCount), index)
    {
      attractorCount := ArrayOrderedRemove(attractors, attractorCount, index);
    }

    /** "+ New color" of emitter `s`. */
    method AddColor(s: int)
      requires Valid() && 0 <= s < emitterCount && emitters[s].colorCount < MaxColorCount
      modifies emitters
      ensures Valid() && emitters[..] == old(emitters[..])[s := WithColorAdded(old(emitters[s]))]
    {
      emitters[s] := WithColorAdded(emitters[s]);
    }

    /** The " - " button of colour `i` of emitter `s`. */
    method DeleteColor(s: int, i: int)
      requires Valid() && 0 <= s < emitterCount && 1 <= i < emitters[s].colorCount
      modifies emitters
      ensures Valid() && emitters[..] == old(emitters[..])[s := WithColorRemoved(old(emitters[s]), i)]
    {
      emitters[s] := WithColorRemoved(emitters[s], i);
    }

    /** "+ New emitter": duplicates the last emitter. */
    method AddEmitter()
      requires Valid() && emitterCount < MaxEmitterCount
      modifies this`emitterCount, emitters
      ensures Valid() && emitterCount == old(emitterCount) + 1
      ensures emitters[..] == old(emitters[..])[old(emitterCount) := old(emitters[emitterCount - 1])]
    {
      emitters[emitterCount] := emitters[emitterCount - 1];
      emitterCount := emitterCount + 1;
    }

    /** The "Delete" button of emitter `s`, which every emitter but the first has. */
    method DeleteEmitter(s: int)
      requires Valid() && 1 <= s < emitterCount
      modifies this`emitterCount, emitters
      ensures Valid() && emitterCount == old(emitterCount) - 1
      ensures emitters[..] == OrderedRemoved(old(emitters[..]), old(emitterCount), s)
    {
      emitterCount := ArrayOrderedRemove(emitters, emitterCount, s);
    }
  }
}
