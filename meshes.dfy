// Index and vertex patterns of the generated meshes: `mesh_generate_regular_polygon` and
// `mesh_generate_quad` (implementation/utils.cpp), and the immediate-mode builder of
// example/code/immediate_graphics.cpp, which appends rectangles, polygons and bezier strips
// to one growing mesh and hands it over on `immediate_mesh` or `immediate_flush`.
//
// Two index patterns as written go wrong at their edges; each is modelled as written, with
// the input that shows it, next to the corrected pattern the rest of the model uses.

module Meshes {
  import opened Vectors
  import opened MathLib
  import opened Sampling
  import opened ParticleSystems
  import opened Backend

  /** The sizes of the generator's local arrays. */
  const MaxVertices: int := 128
  const MaxIndices: int := 256

  const WhiteColor := Vec4(1.0, 1.0, 1.0, 1.0)

  // ------------------------------------------------------------------ the triangle fan

  /** Index `k` of the pattern the index loop stores: triangle t is (0, t + 1, t + 2). */
  function RawFanIndex(k: nat): nat
  {
    if k % 3 == 0 then 0 else k / 3 + k % 3
  }

  /**
   * The fan of an n-sided polygon: triangle t is (centre 0, rim t + 1, rim t + 2), except
   * that the last triangle closes back to rim vertex 1.
   */
  function Fan(n: nat): (r: seq<nat>)
    requires n >= 1
    ensures |r| == 3 * n
  {
    seq(3 * n, k requires 0 <= k < 3 * n => if k == 3 * n - 1 then 1 else RawFanIndex(k))
  }

  lemma Triangle(t: nat, j: nat)
    requires j < 3
    ensures (3 * t + j) / 3 == t && (3 * t + j) % 3 == j
  {
  }

  /**
   * The fan's triangles: each starts at the centre; triangle t joins rim vertices t + 1 and
   * t + 2, and the last one joins rim vertex n back to rim vertex 1.
   */
  lemma {:induction false} FanShape(n: nat, t: nat)
    requires 1 <= n && t < n
    ensures Fan(n)[3 * t] == 0
    ensures t < n - 1 ==> Fan(n)[3 * t + 1] == t + 1 && Fan(n)[3 * t + 2] == t + 2
    ensures t == n - 1 ==> Fan(n)[3 * t + 1] == n && Fan(n)[3 * t + 2] == 1
  {
    Triangle(t, 0);
    Triangle(t, 1);
    Triangle(t, 2);
  }

  /** Every index of the fan names one of the n + 1 vertices. */
  lemma {:induction false} FanInRange(n: nat)
    requires n >= 1
    ensures forall k :: 0 <= k < 3 * n ==> Fan(n)[k] <= n
  {
    forall k | 0 <= k < 3 * n
      ensures Fan(n)[k] <= n
    {
      Triangle(k / 3, k % 3);
    }
  }

  /** Every rim edge, from vertex i to the next one round the polygon, is in the fan. */
  lemma {:induction false} FanCoversRim(n: nat, i: nat)
    requires 1 <= i <= n
    ensures Fan(n)[3 * (i - 1) + 1] == i
    ensures Fan(n)[3 * (i - 1) + 2] == (if i == n then 1 else i + 1)
  {
    FanShape(n, i - 1);
  }

  // ------------------------------------------------- mesh_generate_regular_polygon

  /** The assertions `vertex_count < MAX_VERTICES` and `index_count < MAX_INDICES`. */
  predicate PassesAssertions(n: int)
  {
    1 + n < MaxVertices && 3 * n < MaxIndices
  }

  /**
   * The positions of `indices` the generator as written stores to, in order: 3t, 3t + 1 and
   * 3t + 2 for t = 0 to N inclusive (nothing when N is negative), then `index_count - 1`.
   */
  function IndexStoresAsWritten(n: int): (r: seq<int>)
    ensures |r| == (if n >= 0 then 3 * n + 4 else 1)
    ensures forall k :: 0 <= k < |r| - 1 ==> r[k] == k
    ensures r[|r| - 1] == 3 * n - 1
  {
    (if n >= 0 then seq(3 * n + 3, k => k) else []) + [3 * n - 1]
  }

  /**
   * Finding: as written, a side count the assertions accept makes the generator store
   * outside its 256 indices exactly when it is 85 (stores to 255, 256 and 257), or 0 or
   * negative (the fix-up store to 3N - 1, below zero).
   */
  lemma {:induction false} IndexOverrunAsWritten(n: int)
    requires PassesAssertions(n)
    ensures (exists k :: 0 <= k < |IndexStoresAsWritten(n)| && !(0 <= IndexStoresAsWritten(n)[k] < MaxIndices))
      <==> n == 85 || n <= 0
  {
    var r := IndexStoresAsWritten(n);
    if n == 85 || n <= 0 {
      var k := if n == 85 then 3 * n + 2 else |r| - 1;
      assert r[k] == 257 || r[k] < 0;
    } else {
      forall k | 0 <= k < |r|
        ensures 0 <= r[k] < MaxIndices
      {
      }
    }
  }

  /** The angle of rim vertex i of an n-sided polygon: i steps of 2 pi / n. */
  function RimAngle(m: Libm, n: nat, i: nat): real
    requires n >= 1
  {
    (2.0 * m.pi) / n as real * i as real
  }

  /** Rim vertex i of the generated polygon, or the centre for i = 0. */
  function PolygonVertex(m: Libm, n: nat, i: nat): Vertex
    requires n >= 1
  {
    if i == 0 then Vertex(Vec3(0.0, 0.0, 0.0), WhiteColor, Vec2(0.5, 0.5))
    else
      var p := PolarPoint(m, 0.5, RimAngle(m, n, i));
      Vertex(Vec3(p.x, p.y, 0.0), WhiteColor, Vec2(p.x + 0.5, p.y + 0.5))
  }

  lemma {:induction false} HalfBound(x: real, y: real)
    requires x * x + y * y == 0.25
    ensures -0.5 <= x <= 0.5
  {
    assert y * y >= 0.0;
  }

  /**
   * Rim vertices lie on the circle of radius 0.5 round the centre, and their texture
   * coordinates are the position moved by (0.5, 0.5), so they stay in the unit square.
   */
  lemma {:induction false} RimVertexShape(m: Libm, n: nat, i: nat)
    requires Lawful(m) && 1 <= i <= n
    ensures var v := PolygonVertex(m, n, i);
      && Norm2(Xy3(v.position)) == 0.25
      && v.uv == Vec2(v.position.x + 0.5, v.position.y + 0.5)
      && 0.0 <= v.uv.x <= 1.0 && 0.0 <= v.uv.y <= 1.0
  {
    var p := PolarPoint(m, 0.5, RimAngle(m, n, i));
    PolarPointLength(m, 0.5, RimAngle(m, n, i));
    HalfBound(p.x, p.y);
    HalfBound(p.y, p.x);
  }

  /**
   * `mesh_generate_regular_polygon` with the index loop stopping after triangle N - 1: the
   * centre and N rim vertices, and the fan over them, handed to `mesh_create`. The side
   * count must pass the source's assertions and be at least 1 (the source divides by it).
   */
  method GenerateRegularPolygon(m: Libm, n: int) returns (mesh: Mesh)
    requires 1 <= n && PassesAssertions(n)
    ensures fresh(mesh) && mesh.Valid()
    ensures mesh.vertexCount == n + 1 && mesh.indexCount == 3 * n && mesh.usage == StaticDraw
    ensures forall i :: 0 <= i < n + 1 ==> mesh.vertexData[i] == Some(PolygonVertex(m, n, i))
    ensures forall k :: 0 <= k < 3 * n ==> mesh.indexData[k] == Some(Fan(n)[k])
  {
    var vertexCount := 1 + n;
    var indexCount := n * 3;
    var vertices := PolygonVertices(m, n);
    var indices := FanIndices(n);
    mesh := new Mesh.Create(vertexCount, indexCount, Some(vertices[..]), Some(indices[..]));
  }

  /** The vertex loop of `mesh_generate_regular_polygon`, into an array of `MAX_VERTICES`. */
  method PolygonVertices(m: Libm, n: nat) returns (vertices: array<Vertex>)
    requires 1 <= n && PassesAssertions(n)
    ensures fresh(vertices) && vertices.Length == MaxVertices
    ensures forall i :: 0 <= i < n + 1 ==> vertices[i] == PolygonVertex(m, n, i)
  {
    vertices := new Vertex[MaxVertices](_ => Vertex(Vec3(0.0, 0.0, 0.0), Vec4(0.0, 0.0, 0.0, 0.0), Vec2(0.0, 0.0)));
    vertices[0] := Vertex(Vec3(0.0, 0.0, 0.0), WhiteColor, Vec2(0.5, 0.5));
    var dangle := (2.0 * m.pi) / n as real;
    var i := 1;
    while i < n + 1
      invariant 1 <= i <= n + 1
      invariant forall j :: 0 <= j < i ==> vertices[j] == PolygonVertex(m, n, j)
    {
      var angle := dangle * i as real;
      var x := 0.5 * m.cos(angle);
      var y := 0.5 * m.sin(angle);
      vertices[i] := Vertex(Vec3(x, y, 0.0), WhiteColor, Vec2(x + 0.5, y + 0.5));
      assert angle == RimAngle(m, n, i);
      i := i + 1;
    }
  }

  /**
   * The index loop of `mesh_generate_regular_polygon`, stopping after triangle N - 1, and
   * the fix-up of the last index, into an array of `MAX_INDICES`.
   */
  method FanIndices(n: nat) returns (indices: array<nat>)
    requires 1 <= n && PassesAssertions(n)
    ensures fresh(indices) && indices.Length == MaxIndices
    ensures forall k :: 0 <= k < 3 * n ==> indices[k] == Fan(n)[k]
  {
    indices := new nat[MaxIndices](_ => 0);
    var t := 0;
    while t < n
      invariant 0 <= t <= n
      invariant forall k :: 0 <= k < 3 * t ==> indices[k] == RawFanIndex(k)
    {
      Triangle(t, 1);
      Triangle(t, 2);
      indices[3 * t + 0] := 0;
      indices[3 * t + 1] := t + 1;
      indices[3 * t + 2] := t + 2;
      t := t + 1;
    }
    indices[n * 3 - 1] := 1;
  }

  // ------------------------------------------------------------- mesh_generate_quad

  /**
   * The four corners of the rectangle from `p0` to `p1`, counter-clockwise from `p0`, white,
   * with the texture's corners as uv.
   */
  function QuadVertices(p0: Vec2, p1: Vec2): (r: seq<Vertex>)
  {
    [ Vertex(Vec3(p0.x, p0.y, 0.0), WhiteColor, Vec2(0.0, 0.0)),
      Vertex(Vec3(p1.x, p0.y, 0.0), WhiteColor, Vec2(1.0, 0.0)),
      Vertex(Vec3(p1.x, p1.y, 0.0), WhiteColor, Vec2(1.0, 1.0)),
      Vertex(Vec3(p0.x, p1.y, 0.0), WhiteColor, Vec2(0.0, 1.0)) ]
  }

  /** The quad's two triangles, which share the diagonal from corner 0 to corner 2. */
  const QuadIndices: seq<nat> := [0, 1, 2, 0, 2, 3]

  /**
   * Each quad corner's uv is its position relative to the rectangle (0 at `p0`, 1 at `p1`),
   * and the two triangles use all four corners.
   */
  lemma QuadShape(p0: Vec2, p1: Vec2, i: nat)
    requires i < 4 && p0.x != p1.x && p0.y != p1.y
    ensures var v := QuadVertices(p0, p1)[i];
      v.uv == Vec2((v.position.x - p0.x) / (p1.x - p0.x), (v.position.y - p0.y) / (p1.y - p0.y))
    ensures exists k :: 0 <= k < |QuadIndices| && QuadIndices[k] == i
  {
    var v := QuadVertices(p0, p1)[i];
    var dx, dy := p1.x - p0.x, p1.y - p0.y;
    assert dx / dx == 1.0 && dy / dy == 1.0;
    assert (p0.x - p0.x) / dx == 0.0 && (p0.y - p0.y) / dy == 0.0;
    assert QuadIndices[i + (if i == 3 then 2 else 0)] == i;
  }

  /** `mesh_generate_quad`: the four corners and two triangles handed to `mesh_create`. */
  method GenerateQuad(p0: Vec2, p1: Vec2) returns (mesh: Mesh)
    ensures fresh(mesh) && mesh.Valid() && mesh.vertexCount == 4 && mesh.indexCount == 6
    ensures mesh.usage == StaticDraw
    ensures mesh.vertexData == Initial(Some(QuadVertices(p0, p1)), 4)
    ensures mesh.indexData == Initial(Some(QuadIndices), 6)
  {
    var vertices := QuadVertices(p0, p1);
    mesh := new Mesh.Create(4, 6, Some(vertices), Some(QuadIndices));
  }

  // ------------------------------------------------------------- the immediate builder

  /** `Rect`: a corner and a size. */
  datatype Rect = Rect(x: real, y: real, w: real, h: real)

  predicate IndicesInRange(indices: seq<nat>, vertexCount: nat)
  {
    forall k :: 0 <= k < |indices| ==> indices[k] < vertexCount
  }

  /** Local indices made absolute: `put_indices` counts from the first vertex just reserved. */
  function Offset(base: nat, local: seq<nat>): (r: seq<nat>)
    ensures |r| == |local|
    ensures forall k :: 0 <= k < |local| ==> r[k] == base + local[k]
  {
    seq(|local|, k requires 0 <= k < |local| => base + local[k])
  }

  lemma OffsetAppend(base: nat, a: seq<nat>, b: seq<nat>)
    ensures Offset(base, a + b) == Offset(base, a) + Offset(base, b)
  {
    assert forall k :: 0 <= k < |a + b| ==> Offset(base, a + b)[k] == (Offset(base, a) + Offset(base, b))[k];
  }

  /** Local indices below `n`, moved by `base`, stay below `base + n`. */
  lemma OffsetInRange(base: nat, local: seq<nat>, n: nat)
    requires IndicesInRange(local, n)
    ensures IndicesInRange(Offset(base, local), base + n)
  {
  }

  /** The rim vertex i of an immediate polygon, or its centre for i = 0. */
  function ImmediatePolygonVertex(m: Libm, center: Vec2, radius: real, n: nat, i: nat): Vertex
    requires n >= 1
  {
    if i == 0 then Vertex(Vec3(center.x, center.y, 0.0), WhiteColor, Vec2(0.5, 0.5))
    else
      var x := m.cos(RimAngle(m, n, i));
      var y := m.sin(RimAngle(m, n, i));
      Vertex(Vec3(center.x + x * radius, center.y + y * radius, 0.0), WhiteColor, Vec2(0.5 * x + 0.5, 0.5 * y + 0.5))
  }

  /**
   * An immediate polygon's rim vertices lie at distance |radius| from its centre, and their
   * texture coordinates stay in the unit square.
   */
  lemma {:induction false} ImmediateRimShape(m: Libm, center: Vec2, radius: real, n: nat, i: nat)
    requires Lawful(m) && 1 <= i <= n
    ensures var v := ImmediatePolygonVertex(m, center, radius, n, i);
      && Norm2(Sub2(Xy3(v.position), center)) == radius * radius
      && 0.0 <= v.uv.x <= 1.0 && 0.0 <= v.uv.y <= 1.0
  {
    var a := RimAngle(m, n, i);
    var v := ImmediatePolygonVertex(m, center, radius, n, i);
    PolarPointLength(m, radius, a);
    assert Sub2(Xy3(v.position), center) == PolarPoint(m, radius, a);
    PolarPointLength(m, 1.0, a);
    HalfBound(0.5 * m.cos(a), 0.5 * m.sin(a));
    HalfBound(0.5 * m.sin(a), 0.5 * m.cos(a));
  }

  function ImmediatePolygonVertices(m: Libm, center: Vec2, radius: real, n: nat): (r: seq<Vertex>)
    requires n >= 1
    ensures |r| == n + 1
  {
    seq(n + 1, i requires 0 <= i < n + 1 => ImmediatePolygonVertex(m, center, radius, n, i))
  }

  /**
   * The local indices `immediate_regular_polygon` emits as written: (0, t + 1, t + 2) for
   * every t below N, then the closing (0, N, 1).
   */
  function ImmediatePolygonIndicesAsWritten(n: nat): (r: seq<nat>)
    ensures |r| == 3 * n + 3
  {
    seq(3 * n, k requires 0 <= k < 3 * n => RawFanIndex(k)) + [0, n, 1]
  }

  /**
   * Finding: as written, an immediate polygon emits N + 1 triangles where `index_count` says
   * N, and its last loop triangle names local vertex N + 1, one past the N + 1 vertices it
   * reserved. A triangle (N = 3) shows it: 12 indices, one of them 4.
   */
  lemma {:induction false} ImmediatePolygonOverrunAsWritten(n: nat)
    requires n >= 1
    ensures |ImmediatePolygonIndicesAsWritten(n)| == 3 * n + 3
    ensures ImmediatePolygonIndicesAsWritten(n)[3 * (n - 1) + 2] == n + 1
    ensures !IndicesInRange(ImmediatePolygonIndicesAsWritten(n), n + 1)
  {
    Triangle(n - 1, 2);
    assert ImmediatePolygonIndicesAsWritten(n)[3 * (n - 1) + 2] == RawFanIndex(3 * (n - 1) + 2);
  }

  /** Two vertices per bezier sample: the two sides of the stroke. */
  function StrokeVertex(p: Vec2): Vertex
  {
    Vertex(Vec3(p.x, p.y, 0.0), WhiteColor, Vec2(0.0, 0.0))
  }

  function StrokeVertices(sides: nat -> (Vec2, Vec2), n: nat): (r: seq<Vertex>)
    ensures |r| == 2 * n
  {
    if n == 0 then [] else StrokeVertices(sides, n - 1) + [StrokeVertex(sides(n - 1).0), StrokeVertex(sides(n - 1).1)]
  }

  /** The strip joining `g + 1` consecutive sample pairs: two triangles per gap. */
  function StripIndices(g: nat): (r: seq<nat>)
    ensures |r| == 6 * g
  {
    if g == 0 then []
    else
      var b := 2 * (g - 1);
      StripIndices(g - 1) + [b, b + 1, b + 2, b + 1, b + 2, b + 3]
  }

  /** The strip over `g` gaps names only the `2 * (g + 1)` vertices of its samples. */
  lemma {:induction false} StripInRange(g: nat)
    ensures IndicesInRange(StripIndices(g), 2 * g + 2)
  {
    if g > 0 {
      StripInRange(g - 1);
      var r := StripIndices(g);
      forall k | 0 <= k < |r|
        ensures r[k] < 2 * g + 2
      {
        if k < 6 * (g - 1) {
          assert r[k] == StripIndices(g - 1)[k];
        }
      }
    }
  }

  /** One more gap appends its two triangles, moved by `base`. */
  lemma {:induction false} StripStep(base: nat, g: nat)
    ensures Offset(base, StripIndices(g + 1))
      == Offset(base, StripIndices(g)) + [base + 2 * g, base + 2 * g + 1, base + 2 * g + 2, base + 2 * g + 1, base + 2 * g + 2, base + 2 * g + 3]
  {
    var six := [2 * g, 2 * g + 1, 2 * g + 2, 2 * g + 1, 2 * g + 2, 2 * g + 3];
    assert StripIndices(g + 1) == StripIndices(g) + six;
    OffsetAppend(base, StripIndices(g), six);
    assert Offset(base, six) == [base + 2 * g, base + 2 * g + 1, base + 2 * g + 2, base + 2 * g + 1, base + 2 * g + 2, base + 2 * g + 3];
  }

  /** The gaps a bezier of `n` samples joins: none without samples, `n - 1` otherwise. */
  function Gaps(n: nat): nat
  {
    if n == 0 then 0 else n - 1
  }

  lemma AppendInRange(a: seq<nat>, b: seq<nat>, low: nat, high: nat)
    requires IndicesInRange(a, low) && IndicesInRange(b, high) && low <= high
    ensures IndicesInRange(a + b, high)
  {
  }

  /** The vertex loop of `immediate_regular_polygon`: the centre, then the N rim vertices. */
  method RimVertices(m: Libm, center: Vec2, radius: real, n: nat) returns (added: seq<Vertex>)
    requires n >= 1
    ensures added == ImmediatePolygonVertices(m, center, radius, n)
  {
    var dangle := (2.0 * m.pi) / n as real;
    added := [Vertex(Vec3(center.x, center.y, 0.0), WhiteColor, Vec2(0.5, 0.5))];
    var i := 1;
    while i < n + 1
      invariant 1 <= i <= n + 1 && |added| == i
      invariant forall j :: 0 <= j < i ==> added[j] == ImmediatePolygonVertex(m, center, radius, n, j)
    {
      var angle := dangle * i as real;
      var x := m.cos(angle);
      var y := m.sin(angle);
      added := added + [Vertex(Vec3(center.x + x * radius, center.y + y * radius, 0.0), WhiteColor, Vec2(0.5 * x + 0.5, 0.5 * y + 0.5))];
      assert angle == RimAngle(m, n, i);
      i := i + 1;
    }
  }

  /** What the strip holds before sample `i` of `n` is processed: one gap per sample before it, at most `n - 1`. */
  function StripBefore(n: nat, i: nat): nat
  {
    if i < n then i else Gaps(n)
  }

  /** Sample `i` adds its two stroke vertices and, unless it is the last, the two triangles to the next sample. */
  lemma {:induction false} StrokeStep(sides: nat -> (Vec2, Vec2), n: nat, base: nat, i: nat)
    requires i < n
    ensures StrokeVertices(sides, i + 1) == StrokeVertices(sides, i) + [StrokeVertex(sides(i).0), StrokeVertex(sides(i).1)]
    ensures i < n - 1 ==>
      (Offset(base, StripIndices(StripBefore(n, i + 1)))
       == Offset(base, StripIndices(StripBefore(n, i))) + [base + 2 * i, base + 2 * i + 1, base + 2 * i + 2, base + 2 * i + 1, base + 2 * i + 2, base + 2 * i + 3])
    ensures i == n - 1 ==> StripBefore(n, i + 1) == StripBefore(n, i)
  {
    if i < n - 1 {
      StripStep(base, i);
    }
  }

  /**
   * The loop of `immediate_bezier`: the two stroke vertices of each sample, and two
   * triangles from each sample to the next, counted from vertex `base`.
   */
  method Stroke(sides: nat -> (Vec2, Vec2), n: nat, base: nat) returns (added: seq<Vertex>, joined: seq<nat>)
    ensures added == StrokeVertices(sides, n)
    ensures joined == Offset(base, StripIndices(Gaps(n)))
  {
    added, joined := [], [];
    var i := 0;
    while i < n
      invariant 0 <= i <= n
      invariant added == StrokeVertices(sides, i)
      invariant joined == Offset(base, StripIndices(StripBefore(n, i)))
    {
      StrokeStep(sides, n, base, i);
      var pair := sides(i);
      added := added + [StrokeVertex(pair.0), StrokeVertex(pair.1)];
      if i < n - 1 {
        var b := base + 2 * i;
        joined := joined + [b + 0, b + 1, b + 2, b + 1, b + 2, b + 3];
      }
      i := i + 1;
    }
  }

  /** `the_builder` and `the_mesh` of example/code/immediate_graphics.cpp. */
  class ImmediateGraphics {
    const vertexCapacity: nat
    const indexCapacity: nat
    var vertices: seq<Vertex>
    var indices: seq<nat>
    const mesh: Mesh

    /** The builder stays within its capacity and names only vertices it holds. */
    ghost predicate Valid()
      reads this, mesh
    {
      && |vertices| <= vertexCapacity && |indices| <= indexCapacity
      && IndicesInRange(indices, |vertices|)
      && mesh.Valid() && mesh.vertexCount == vertexCapacity && mesh.indexCount == indexCapacity
      && vertexCapacity * VertexBytes < Uint32Modulus && indexCapacity * IndexBytes < Uint32Modulus
    }

    /** `immediate_init`: an empty builder for 1024 vertices and 3072 indices, and a stream mesh as large. */
    constructor Init()
      ensures Valid() && fresh(mesh)
      ensures vertexCapacity == 1024 && indexCapacity == 3072
      ensures vertices == [] && indices == [] && mesh.usage == StreamDraw
    {
      vertexCapacity := 1024;
      indexCapacity := 1024 * 3;
      vertices := [];
      indices := [];
      mesh := new Mesh.Create(1024, 1024 * 3, None, None);
    }

    /** `immediate_rect`: the rectangle's four corners and the quad's two triangles. */
    method PutRect(rect: Rect)
      requires Valid() && |vertices| + 4 <= vertexCapacity && |indices| + 6 <= indexCapacity
      modifies this`vertices, this`indices
      ensures Valid()
      ensures vertices == old(vertices) + QuadVertices(Vec2(rect.x, rect.y), Vec2(rect.x + rect.w, rect.y + rect.h))
      ensures indices == old(indices) + Offset(|old(vertices)|, QuadIndices)
    {
      var x0 := rect.x;
      var x1 := rect.x + rect.w;
      var y0 := rect.y;
      var y1 := rect.y + rect.h;
      var base := |vertices|;
      vertices := vertices + [
        Vertex(Vec3(x0, y0, 0.0), WhiteColor, Vec2(0.0, 0.0)),
        Vertex(Vec3(x1, y0, 0.0), WhiteColor, Vec2(1.0, 0.0)),
        Vertex(Vec3(x1, y1, 0.0), WhiteColor, Vec2(1.0, 1.0)),
        Vertex(Vec3(x0, y1, 0.0), WhiteColor, Vec2(0.0, 1.0))];
      OffsetInRange(base, QuadIndices, 4);
      AppendInRange(indices, Offset(base, QuadIndices), base, |vertices|);
      indices := indices + Offset(base, QuadIndices);
    }

    /**
     * `immediate_regular_polygon` with the corrected fan: the centre, N rim vertices at
     * `radius` round it, and N triangles, the last closing back to rim vertex 1.
     */
    method PutRegularPolygon(m: Libm, center: Vec2, radius: real, n: nat)
      requires Valid() && n >= 1
      requires |vertices| + n + 1 <= vertexCapacity && |indices| + 3 * n <= indexCapacity
      modifies this`vertices, this`indices
      ensures Valid()
      ensures vertices == old(vertices) + ImmediatePolygonVertices(m, center, radius, n)
      ensures indices == old(indices) + Offset(|old(vertices)|, Fan(n))
    {
      var base := |vertices|;
      var added := RimVertices(m, center, radius, n);
      vertices := vertices + added;
      FanInRange(n);
      OffsetInRange(base, Fan(n), n + 1);
      AppendInRange(indices, Offset(base, Fan(n)), base, |vertices|);
      indices := indices + Offset(base, Fan(n));
    }

    /**
     * `immediate_bezier`: two stroke vertices per sample (their positions come from the
     * curve helpers, which are not part of this model, and are passed in as `sides`), and
     * two triangles joining each sample to the next.
     */
    method PutBezier(sides: nat -> (Vec2, Vec2), n: nat)
      requires Valid()
      requires |vertices| + 2 * n <= vertexCapacity && |indices| + 6 * Gaps(n) <= indexCapacity
      modifies this`vertices, this`indices
      ensures Valid()
      ensures vertices == old(vertices) + StrokeVertices(sides, n)
      ensures indices == old(indices) + Offset(|old(vertices)|, StripIndices(Gaps(n)))
    {
      var base := |vertices|;
      var added, joined := Stroke(sides, n, base);
      vertices := vertices + added;
      StripInRange(Gaps(n));
      OffsetInRange(base, StripIndices(Gaps(n)), 2 * Gaps(n) + 2);
      AppendInRange(indices, joined, base, |vertices|);
      indices := indices + joined;
    }

    /** `immediate_mesh`: a new static mesh of what was built, and the builder cleared. */
    method TakeMesh() returns (result: Mesh)
      requires Valid()
      modifies this`vertices, this`indices
      ensures Valid() && fresh(result) && result.Valid()
      ensures result.vertexCount == |old(vertices)| && result.indexCount == |old(indices)| && result.usage == StaticDraw
      ensures result.vertexData == Initial(Some(old(vertices)), |old(vertices)|)
      ensures result.indexData == Initial(Some(old(indices)), |old(indices)|)
      ensures vertices == [] && indices == []
    {
      result := new Mesh.Create(|vertices|, |indices|, Some(vertices), Some(indices));
      vertices := [];
      indices := [];
    }

    /**
     * `immediate_flush`: what was built is uploaded to the front of the shared mesh, as many
     * indices as were built are drawn, all naming uploaded vertices, and the builder is
     * cleared.
     */
    method Flush() returns (drawn: nat)
      requires Valid()
      modifies mesh, this`vertices, this`indices
      ensures Valid()
      ensures mesh.vertexData == Written(old(mesh.vertexData), old(vertices))
      ensures mesh.indexData == Written(old(mesh.indexData), old(indices))
      ensures drawn == |old(indices)|
      ensures forall k :: 0 <= k < drawn ==> mesh.indexData[k].Some? && mesh.indexData[k].value < |old(vertices)|
      ensures vertices == [] && indices == []
    {
      mesh.Upload(|vertices|, vertices, |indices|, indices);
      assert vertices[..|vertices|] == vertices && indices[..|indices|] == indices;
      drawn := |indices|;
      vertices := [];
      indices := [];
    }
  }
}
