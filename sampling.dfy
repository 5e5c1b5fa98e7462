// Randomised parameters and how they are sampled (implementation/utils.cpp,
// code/sparkles.cpp, include/sparkles_utils.h), and the weighted palette choice of the
// sandbox burst (example/code/sandbox.cpp, example/code/example_sandbox.cpp).
//
// A uniform draw `rand() / RAND_MAX` is a number in [0, 1]; the samplers take their draws
// as parameters, in the order the source makes them.

module Sampling {
  import opened Vectors
  import opened MathLib

  /** One uniform draw: `rand() / (float) RAND_MAX`, so 0 and 1 are both possible. */
  type Unit = u: real | 0.0 <= u <= 1.0

  /**
   * `Distribution` names one value, UNIFORM. The enum is stored as an integer that the
   * editor writes, so any other stored value is kept as `UnlistedDistribution`.
   */
  datatype Distribution = Uniform | UnlistedDistribution(code: int)

  datatype RandomScalar = RandomScalar(distribution: Distribution, min: real, max: real)

  /** The tagged union `RandomVec2`: either two independent coordinates, or an angle and a radius. */
  datatype RandomVec2 =
    | Rectangular(x: RandomScalar, y: RandomScalar)
    | Polar(angle: RandomScalar, radius: RandomScalar)

  /** The tagged union `RandomColor`; `alpha` is shared by both colour systems. */
  datatype RandomColor =
    | Rgb(red: RandomScalar, green: RandomScalar, blue: RandomScalar, alpha: RandomScalar)
    | Hsb(hue: RandomScalar, saturation: RandomScalar, brightness: RandomScalar, alpha: RandomScalar)

  /** `SpawnParams`: how each field of a newly spawned particle is drawn. */
  datatype SpawnParams = SpawnParams(
    position: RandomVec2,
    scale: RandomScalar,
    color: RandomColor,
    velocity: RandomVec2,
    life: RandomScalar)

  /** The cases in which the source stops on `assert(false)`. */
  datatype Failure = UnknownDistribution | HsbUnimplemented

  datatype Result<T> = Ok(value: T) | Err(failure: Failure)

  /** `v` lies between `a` and `b`, whichever of the two is larger. */
  ghost predicate Between(v: real, a: real, b: real)
  {
    if a <= b then a <= v <= b else b <= v <= a
  }

  lemma {:induction false} LerpBetween(a: real, b: real, u: Unit)
    ensures Between(a + u * (b - a), a, b)
  {
    var d := b - a;
    var p := u * d;
    var q := (1.0 - u) * d;
    assert p + q == d;
    if d >= 0.0 {
      assert p >= 0.0 && q >= 0.0;
    } else {
      var e := -d;
      assert u * e >= 0.0 && (1.0 - u) * e >= 0.0;
      assert p == -(u * e) && q == -((1.0 - u) * e);
    }
  }

  /** `random_get(RandomScalar)` with the draw `u`. */
  function SampleScalar(spec: RandomScalar, u: Unit): (r: Result<real>)
    ensures r.Ok? <==> spec.distribution == Uniform
    ensures r.Err? ==> r.failure == UnknownDistribution
    ensures r.Ok? ==> Between(r.value, spec.min, spec.max)
    ensures r.Ok? && u == 0.0 ==> r.value == spec.min
    ensures r.Ok? && u == 1.0 ==> r.value == spec.max
  {
    match spec.distribution
    case Uniform =>
      LerpBetween(spec.min, spec.max, u);
      Ok(spec.min + u * (spec.max - spec.min))
    case UnlistedDistribution(_) => Err(UnknownDistribution)
  }

  /** `random_get(RandomVec2)` with the draws `u0` (x or angle) and `u1` (y or radius). */
  function SampleVec2(m: Libm, spec: RandomVec2, u0: Unit, u1: Unit): (r: Result<Vec2>)
    ensures r.Ok? <==> match spec
      case Rectangular(x, y) => x.distribution == Uniform && y.distribution == Uniform
      case Polar(angle, radius) => angle.distribution == Uniform && radius.distribution == Uniform
    ensures r.Ok? && spec.Rectangular? ==>
      Between(r.value.x, spec.x.min, spec.x.max) && Between(r.value.y, spec.y.min, spec.y.max)
  {
    match spec
    case Rectangular(sx, sy) =>
      var x := SampleScalar(sx, u0);
      var y := SampleScalar(sy, u1);
      if x.Err? then Err(x.failure)
      else if y.Err? then Err(y.failure)
      else Ok(Vec2(x.value, y.value))
    case Polar(sangle, sradius) =>
      var angle := SampleScalar(sangle, u0);
      var radius := SampleScalar(sradius, u1);
      if angle.Err? then Err(angle.failure)
      else if radius.Err? then Err(radius.failure)
      else Ok(PolarPoint(m, radius.value, angle.value))
  }

  /**
   * A polar sample lies on the circle of the sampled radius: with a non-negative radius
   * range its length is within that range.
   */
  lemma {:induction false} PolarSampleLength(m: Libm, spec: RandomVec2, u0: Unit, u1: Unit)
    requires Lawful(m) && spec.Polar?
    requires SampleVec2(m, spec, u0, u1).Ok?
    requires 0.0 <= spec.radius.min <= spec.radius.max
    ensures spec.radius.min <= Norm(m, SampleVec2(m, spec, u0, u1).value) <= spec.radius.max
  {
    var radius := SampleScalar(spec.radius, u1).value;
    var angle := SampleScalar(spec.angle, u0).value;
    assert SampleVec2(m, spec, u0, u1).value == PolarPoint(m, radius, angle);
    PolarPointLength(m, radius, angle);
  }

  /** `random_get(RandomColor)` with the draws for red, green, blue and alpha, in that order. */
  function SampleColor(spec: RandomColor, u0: Unit, u1: Unit, u2: Unit, u3: Unit): (r: Result<Vec4>)
    ensures spec.Hsb? ==> r == Err(HsbUnimplemented)
    ensures spec.Rgb? ==> (r.Ok? <==>
      spec.red.distribution == Uniform && spec.green.distribution == Uniform &&
      spec.blue.distribution == Uniform && spec.alpha.distribution == Uniform)
    ensures r.Ok? ==>
      && Between(r.value.x, spec.red.min, spec.red.max)
      && Between(r.value.y, spec.green.min, spec.green.max)
      && Between(r.value.z, spec.blue.min, spec.blue.max)
      && Between(r.value.w, spec.alpha.min, spec.alpha.max)
  {
    match spec
    case Rgb(sr, sg, sb, sa) =>
      var red := SampleScalar(sr, u0);
      var green := SampleScalar(sg, u1);
      var blue := SampleScalar(sb, u2);
      var alpha := SampleScalar(sa, u3);
      if red.Err? then Err(red.failure)
      else if green.Err? then Err(green.failure)
      else if blue.Err? then Err(blue.failure)
      else if alpha.Err? then Err(alpha.failure)
      else Ok(Vec4(red.value, green.value, blue.value, alpha.value))
    case Hsb(_, _, _, _) => Err(HsbUnimplemented)
  }

  /**
   * The C library generator behind `rand()`. `stream(seed, k)` is `rand() / RAND_MAX` on
   * the k-th call after `srand(seed)`; before any `srand` the seed is 1.
   */
  class UniformGenerator {
    const stream: (int, nat) -> Unit
    var seed: int
    var calls: nat
    /** The `static bool first` of `random_get_uniform`. */
    var first: bool

    constructor (stream: (int, nat) -> Unit)
      ensures this.stream == stream && seed == 1 && calls == 0 && first
    {
      this.stream := stream;
      seed := 1;
      calls := 0;
      first := true;
    }

    /** `random_get_uniform` (implementation/utils.cpp): seeds from the clock on its first call only. */
    method RandomGetUniform(now: int) returns (u: Unit)
      modifies this
      ensures !first
      ensures old(first) ==> seed == now && calls == 1 && u == stream(now, 0)
      ensures !old(first) ==> seed == old(seed) && calls == old(calls) + 1 && u == stream(seed, old(calls))
    {
      if first {
        seed := now;
        calls := 0;
        first := false;
      }
      u := stream(seed, calls);
      calls := calls + 1;
    }

    /** `random_uniform_get` (code/sparkles.cpp): never seeds. */
    method RandomUniformGet() returns (u: Unit)
      modifies this`calls
      ensures calls == old(calls) + 1 && u == stream(seed, old(calls))
    {
      u := stream(seed, calls);
      calls := calls + 1;
    }
  }

  // ------------------------------------------------------ weighted palette choice

  /** Sum of the weights, accumulated from the front as the source does. */
  function Sum(w: seq<real>): real
  {
    if w == [] then 0.0 else Sum(w[..|w| - 1]) + w[|w| - 1]
  }

  /** The sum of the first `k` weights. */
  function Upto(w: seq<real>, k: nat): real
    requires k <= |w|
  {
    Sum(w[..k])
  }

  lemma SumStep(w: seq<real>, i: nat)
    requires i < |w|
    ensures Upto(w, i + 1) == Upto(w, i) + w[i]
  {
    assert w[..i + 1][..i] == w[..i];
  }

  datatype Option<T> = None | Some(value: T)

  /**
   * The index the palette scan stops at for the threshold `r`: the first `i` with
   * `r < w[0] + ... + w[i]`, scanning from `i` with `cursor` the sum of the weights before it.
   */
  function PickFrom(w: seq<real>, r: real, i: nat, cursor: real): (k: Option<nat>)
    requires i <= |w|
    ensures k.Some? ==> i <= k.value < |w|
    decreases |w| - i
  {
    if i == |w| then None
    else if r < cursor + w[i] then Some(i)
    else PickFrom(w, r, i + 1, cursor + w[i])
  }

  function Pick(w: seq<real>, r: real): (k: Option<nat>)
    ensures k.Some? ==> k.value < |w|
  {
    PickFrom(w, r, 0, 0.0)
  }

  /** Index `i` is where the scan stops: its running sum is the first to exceed `r`. */
  ghost predicate FirstAbove(w: seq<real>, r: real, i: nat)
  {
    && i < |w|
    && r < Upto(w, i + 1)
    && forall k :: 0 < k <= i ==> Upto(w, k) <= r
  }

  lemma {:induction false} PickFromIsFirstAbove(w: seq<real>, r: real, i: nat)
    requires i <= |w|
    requires forall k :: 0 < k <= i ==> Upto(w, k) <= r
    ensures var p := PickFrom(w, r, i, Upto(w, i));
      && (p.Some? ==> FirstAbove(w, r, p.value))
      && (p.None? ==> forall k :: 0 < k <= |w| ==> Upto(w, k) <= r)
    decreases |w| - i
  {
    if i < |w| {
      SumStep(w, i);
      if !(r < Upto(w, i) + w[i]) {
        PickFromIsFirstAbove(w, r, i + 1);
      }
    }
  }

  /** `Pick` is exactly the first index whose running sum exceeds `r`, or none. */
  lemma {:induction false} PickIsFirstAbove(w: seq<real>, r: real)
    ensures Pick(w, r).Some? ==> FirstAbove(w, r, Pick(w, r).value)
    ensures Pick(w, r).None? ==> forall k :: 0 < k <= |w| ==> Upto(w, k) <= r
  {
    assert w[..0] == [];
    PickFromIsFirstAbove(w, r, 0);
  }

  ghost predicate NonNegative(w: seq<real>)
  {
    forall i :: 0 <= i < |w| ==> w[i] >= 0.0
  }

  lemma {:induction false} PrefixSumMonotone(w: seq<real>, i: nat, j: nat)
    requires NonNegative(w) && i <= j <= |w|
    ensures Upto(w, i) <= Upto(w, j)
    decreases j - i
  {
    if i < j {
      SumStep(w, j - 1);
      PrefixSumMonotone(w, i, j - 1);
    }
  }

  /**
   * With non-negative weights and a non-negative threshold, the colour picked has a
   * positive weight: a colour of weight zero is never chosen.
   */
  lemma {:induction false} PickHasPositiveWeight(w: seq<real>, r: real)
    requires NonNegative(w) && r >= 0.0
    requires Pick(w, r).Some?
    ensures w[Pick(w, r).value] > 0.0
  {
    PickIsFirstAbove(w, r);
    var i := Pick(w, r).value;
    SumStep(w, i);
    if i > 0 {
      assert Upto(w, i) <= r;
    } else {
      assert w[..0] == [];
    }
  }

  /** A non-negative threshold below the total of the weights always selects a colour. */
  lemma {:induction false} PickBelowTotal(w: seq<real>, r: real)
    requires 0.0 <= r < Sum(w)
    ensures Pick(w, r).Some?
  {
    PickIsFirstAbove(w, r);
    UptoAll(w);
  }

  lemma UptoAll(w: seq<real>)
    ensures Upto(w, |w|) == Sum(w)
  {
    assert w[..|w|] == w;
  }

  /** The threshold `total * u` of the palette scan: within [0, total] for a non-negative total. */
  function Threshold(total: real, u: Unit): (r: real)
    ensures total >= 0.0 ==> 0.0 <= r <= total
    ensures total > 0.0 && u < 1.0 ==> r < total
    ensures u == 1.0 || total == 0.0 ==> r == total
  {
    var p, q := total * u, total * (1.0 - u);
    assert p + q == total;
    if total >= 0.0 then
      ProductSigns(total, u);
      ProductSigns(total, 1.0 - u);
      p
    else p
  }

  lemma ProductSigns(a: real, b: real)
    requires a >= 0.0 && b >= 0.0
    ensures a * b >= 0.0
    ensures a > 0.0 && b > 0.0 ==> a * b > 0.0
  {
  }

  /** With a positive total and a draw below 1, some colour is always chosen. */
  lemma {:induction false} PickSucceeds(w: seq<real>, u: Unit)
    requires Sum(w) > 0.0 && u < 1.0
    ensures Pick(w, Threshold(Sum(w), u)).Some?
  {
    PickBelowTotal(w, Threshold(Sum(w), u));
  }

  /**
   * When the threshold reaches the total (a draw of exactly 1) or the total is zero,
   * no colour qualifies and the chosen colour stays zero.
   */
  lemma {:induction false} PickFailsAtTotal(w: seq<real>, u: Unit)
    requires NonNegative(w) && (u == 1.0 || Sum(w) == 0.0)
    ensures Pick(w, Threshold(Sum(w), u)).None?
  {
    var r := Threshold(Sum(w), u);
    PickIsFirstAbove(w, r);
    if Pick(w, r).Some? {
      var i := Pick(w, r).value;
      assert w[..|w|] == w;
      PrefixSumMonotone(w, i + 1, |w|);
    }
  }

  /** The colour of `colors` at the picked index, or the zero colour when none is picked. */
  function PickedColor(colors: seq<Vec4>, w: seq<real>, u: Unit): Vec4
    requires |w| <= |colors|
  {
    var k := Pick(w, Threshold(Sum(w), u));
    if k.Some? then colors[k.value] else Vec4(0.0, 0.0, 0.0, 0.0)
  }

  /**
   * The palette choice inside the burst loop: sum the first `count` weights, draw
   * `total * u`, and take the first colour whose running sum exceeds it.
   */
  method ChooseColor(colors: seq<Vec4>, weights: seq<real>, count: int, u: Unit) returns (chosen: Vec4)
    requires 0 <= count <= |weights| && count <= |colors|
    ensures chosen == PickedColor(colors[..count], weights[..count], u)
  {
    ghost var w := weights[..count];
    var total := 0.0;
    var i := 0;
    while i < count
      invariant 0 <= i <= count
      invariant total == Upto(w, i)
    {
      SumStep(w, i);
      total := total + weights[i];
      i := i + 1;
    }
    assert w[..count] == w;

    chosen := Vec4(0.0, 0.0, 0.0, 0.0);
    var r := Threshold(total, u);
    var cursor := 0.0;
    i := 0;
    while i < count
      invariant 0 <= i <= count
      invariant cursor == Upto(w, i)
      invariant Pick(w, r) == PickFrom(w, r, i, cursor)
    {
      var weight := weights[i];
      if r < cursor + weight {
        chosen := colors[i];
        break;
      }
      SumStep(w, i);
      cursor := cursor + weight;
      i := i + 1;
    }
  }
}
