// Vector and matrix arithmetic of Sparkles, over the reals.
//
// implementation/math.cpp (vec2, vec3, vec4, mat4, orthographic), code/my_math.cpp
// (vec2f, vec3f, vec4f with compound operators) and code/math.cpp (vec2f, vec3f, vec4f
// binary operators only) define the same componentwise operators on the same shapes;
// one set of definitions models all three.

module Vectors {

  datatype Vec2 = Vec2(x: real, y: real)
  datatype Vec3 = Vec3(x: real, y: real, z: real)
  datatype Vec4 = Vec4(x: real, y: real, z: real, w: real)

  /** The `xy` view of the unions vec3 and vec4. */
  function Xy3(v: Vec3): Vec2 { Vec2(v.x, v.y) }
  function Xy4(v: Vec4): Vec2 { Vec2(v.x, v.y) }
  function Xyz4(v: Vec4): Vec3 { Vec3(v.x, v.y, v.z) }

  /** Writes `p` into the `xy` view of a vec3, keeping `z`. */
  function WithXy(v: Vec3, p: Vec2): (r: Vec3)
    ensures Xy3(r) == p && r.z == v.z
  {
    Vec3(p.x, p.y, v.z)
  }

  // Component access by index, the reference view used by the lemmas below.
  function At2(v: Vec2, i: nat): real
    requires i < 2
  {
    if i == 0 then v.x else v.y
  }

  function At3(v: Vec3, i: nat): real
    requires i < 3
  {
    if i == 0 then v.x else if i == 1 then v.y else v.z
  }

  function At4(v: Vec4, i: nat): real
    requires i < 4
  {
    if i == 0 then v.x else if i == 1 then v.y else if i == 2 then v.z else v.w
  }

  ghost predicate NonZero2(v: Vec2) { v.x != 0.0 && v.y != 0.0 }
  ghost predicate NonZero3(v: Vec3) { v.x != 0.0 && v.y != 0.0 && v.z != 0.0 }
  ghost predicate NonZero4(v: Vec4) { v.x != 0.0 && v.y != 0.0 && v.z != 0.0 && v.w != 0.0 }

  // ---------------------------------------------------------------- vec2

  function Add2(a: Vec2, b: Vec2): Vec2 { Vec2(a.x + b.x, a.y + b.y) }
  function Sub2(a: Vec2, b: Vec2): Vec2 { Vec2(a.x - b.x, a.y - b.y) }
  function Mul2(a: Vec2, b: Vec2): Vec2 { Vec2(a.x * b.x, a.y * b.y) }
  function Div2(a: Vec2, b: Vec2): Vec2
    requires NonZero2(b)
  {
    Vec2(a.x / b.x, a.y / b.y)
  }
  /** `v * f` */
  function Scale2(v: Vec2, f: real): Vec2 { Vec2(v.x * f, v.y * f) }
  /** `f * v`: the source multiplies in the order `v.x * f` here too. */
  function ScaleLeft2(f: real, v: Vec2): Vec2 { Vec2(v.x * f, v.y * f) }
  function DivScalar2(v: Vec2, f: real): Vec2
    requires f != 0.0
  {
    Vec2(v.x / f, v.y / f)
  }

  // ---------------------------------------------------------------- vec3

  function Add3(a: Vec3, b: Vec3): Vec3 { Vec3(a.x + b.x, a.y + b.y, a.z + b.z) }
  function Sub3(a: Vec3, b: Vec3): Vec3 { Vec3(a.x - b.x, a.y - b.y, a.z - b.z) }
  function Mul3(a: Vec3, b: Vec3): Vec3 { Vec3(a.x * b.x, a.y * b.y, a.z * b.z) }
  function Div3(a: Vec3, b: Vec3): Vec3
    requires NonZero3(b)
  {
    Vec3(a.x / b.x, a.y / b.y, a.z / b.z)
  }
  function Scale3(v: Vec3, f: real): Vec3 { Vec3(v.x * f, v.y * f, v.z * f) }
  function ScaleLeft3(f: real, v: Vec3): Vec3 { Vec3(v.x * f, v.y * f, v.z * f) }
  function DivScalar3(v: Vec3, f: real): Vec3
    requires f != 0.0
  {
    Vec3(v.x / f, v.y / f, v.z / f)
  }

  // ---------------------------------------------------------------- vec4

  function Add4(a: Vec4, b: Vec4): Vec4 { Vec4(a.x + b.x, a.y + b.y, a.z + b.z, a.w + b.w) }
  function Sub4(a: Vec4, b: Vec4): Vec4 { Vec4(a.x - b.x, a.y - b.y, a.z - b.z, a.w - b.w) }
  function Mul4(a: Vec4, b: Vec4): Vec4 { Vec4(a.x * b.x, a.y * b.y, a.z * b.z, a.w * b.w) }
  function Div4(a: Vec4, b: Vec4): Vec4
    requires NonZero4(b)
  {
    Vec4(a.x / b.x, a.y / b.y, a.z / b.z, a.w / b.w)
  }
  function Scale4(v: Vec4, f: real): Vec4 { Vec4(v.x * f, v.y * f, v.z * f, v.w * f) }
  function ScaleLeft4(f: real, v: Vec4): Vec4 { Vec4(v.x * f, v.y * f, v.z * f, v.w * f) }
  function DivScalar4(v: Vec4, f: real): Vec4
    requires f != 0.0
  {
    Vec4(v.x / f, v.y / f, v.z / f, v.w / f)
  }

  // ------------------------------------------- componentwise characterisation

  /** Every binary vec2 operator acts on each component independently. */
  lemma Componentwise2(a: Vec2, b: Vec2, f: real, i: nat)
    requires i < 2
    ensures At2(Add2(a, b), i) == At2(a, i) + At2(b, i)
    ensures At2(Sub2(a, b), i) == At2(a, i) - At2(b, i)
    ensures At2(Mul2(a, b), i) == At2(a, i) * At2(b, i)
    ensures NonZero2(b) ==> At2(b, i) != 0.0 && At2(Div2(a, b), i) == At2(a, i) / At2(b, i)
    ensures At2(Scale2(a, f), i) == At2(a, i) * f
    ensures f != 0.0 ==> At2(DivScalar2(a, f), i) == At2(a, i) / f
  {
  }

  lemma Componentwise3(a: Vec3, b: Vec3, f: real, i: nat)
    requires i < 3
    ensures At3(Add3(a, b), i) == At3(a, i) + At3(b, i)
    ensures At3(Sub3(a, b), i) == At3(a, i) - At3(b, i)
    ensures At3(Mul3(a, b), i) == At3(a, i) * At3(b, i)
    ensures NonZero3(b) ==> At3(b, i) != 0.0 && At3(Div3(a, b), i) == At3(a, i) / At3(b, i)
    ensures At3(Scale3(a, f), i) == At3(a, i) * f
    ensures f != 0.0 ==> At3(DivScalar3(a, f), i) == At3(a, i) / f
  {
  }

  lemma Componentwise4(a: Vec4, b: Vec4, i: nat)
    requires i < 4
    ensures At4(Add4(a, b), i) == At4(a, i) + At4(b, i)
    ensures At4(Sub4(a, b), i) == At4(a, i) - At4(b, i)
  {
  }

  /** The vec4 products, by a vector and by a scalar, act on every component independently. */
  lemma ComponentwiseProduct4(a: Vec4, b: Vec4, f: real, i: nat)
    requires i < 4
    ensures At4(Mul4(a, b), i) == At4(a, i) * At4(b, i)
    ensures At4(Scale4(a, f), i) == At4(a, i) * f
  {
  }

  /** The vec4 quotients, by a vector and by a scalar, act on every component independently. */
  lemma ComponentwiseQuotient4(a: Vec4, b: Vec4, f: real, i: nat)
    requires i < 4
    ensures NonZero4(b) ==> At4(b, i) != 0.0 && At4(Div4(a, b), i) == At4(a, i) / At4(b, i)
    ensures f != 0.0 ==> At4(DivScalar4(a, f), i) == At4(a, i) / f
  {
  }

  /** `v * f == f * v` for every width. */
  lemma ScaleCommutes(v2: Vec2, v3: Vec3, v4: Vec4, f: real)
    ensures Scale2(v2, f) == ScaleLeft2(f, v2)
    ensures Scale3(v3, f) == ScaleLeft3(f, v3)
    ensures Scale4(v4, f) == ScaleLeft4(f, v4)
  {
  }

  // -------------------------------------------------- compound assignment
  //
  // `a op= b` updates its left operand through a reference, one component at a time.
  // Each method below takes the operand's value and returns its new value.

  method AddAssign2(a: Vec2, b: Vec2) returns (a': Vec2)
    ensures a' == Add2(a, b)
  {
    a' := a;
    a' := a'.(x := a'.x + b.x);
    a' := a'.(y := a'.y + b.y);
  }

  method SubAssign2(a: Vec2, b: Vec2) returns (a': Vec2)
    ensures a' == Sub2(a, b)
  {
    a' := a;
    a' := a'.(x := a'.x - b.x);
    a' := a'.(y := a'.y - b.y);
  }

  method MulAssign2(a: Vec2, b: Vec2) returns (a': Vec2)
    ensures a' == Mul2(a, b)
  {
    a' := a;
    a' := a'.(x := a'.x * b.x);
    a' := a'.(y := a'.y * b.y);
  }

  method DivAssign2(a: Vec2, b: Vec2) returns (a': Vec2)
    requires NonZero2(b)
    ensures a' == Div2(a, b)
  {
    a' := a;
    a' := a'.(x := a'.x / b.x);
    a' := a'.(y := a'.y / b.y);
  }

  method ScaleAssign2(v: Vec2, f: real) returns (v': Vec2)
    ensures v' == Scale2(v, f)
  {
    v' := v;
    v' := v'.(x := v'.x * f);
    v' := v'.(y := v'.y * f);
  }

  method DivScalarAssign2(v: Vec2, f: real) returns (v': Vec2)
    requires f != 0.0
    ensures v' == DivScalar2(v, f)
  {
    v' := v;
    v' := v'.(x := v'.x / f);
    v' := v'.(y := v'.y / f);
  }

  method AddAssign3(a: Vec3, b: Vec3) returns (a': Vec3)
    ensures a' == Add3(a, b)
  {
    a' := a;
    a' := a'.(x := a'.x + b.x);
    a' := a'.(y := a'.y + b.y);
    a' := a'.(z := a'.z + b.z);
  }

  method SubAssign3(a: Vec3, b: Vec3) returns (a': Vec3)
    ensures a' == Sub3(a, b)
  {
    a' := a;
    a' := a'.(x := a'.x - b.x);
    a' := a'.(y := a'.y - b.y);
    a' := a'.(z := a'.z - b.z);
  }

  method MulAssign3(a: Vec3, b: Vec3) returns (a': Vec3)
    ensures a' == Mul3(a, b)
  {
    a' := a;
    a' := a'.(x := a'.x * b.x);
    a' := a'.(y := a'.y * b.y);
    a' := a'.(z := a'.z * b.z);
  }

  method DivAssign3(a: Vec3, b: Vec3) returns (a': Vec3)
    requires NonZero3(b)
    ensures a' == Div3(a, b)
  {
    a' := a;
    a' := a'.(x := a'.x / b.x);
    a' := a'.(y := a'.y / b.y);
    a' := a'.(z := a'.z / b.z);
  }

  method ScaleAssign3(v: Vec3, f: real) returns (v': Vec3)
    ensures v' == Scale3(v, f)
  {
    v' := v;
    v' := v'.(x := v'.x * f);
    v' := v'.(y := v'.y * f);
    v' := v'.(z := v'.z * f);
  }

  method DivScalarAssign3(v: Vec3, f: real) returns (v': Vec3)
    requires f != 0.0
    ensures v' == DivScalar3(v, f)
  {
    v' := v;
    v' := v'.(x := v'.x / f);
    v' := v'.(y := v'.y / f);
    v' := v'.(z := v'.z / f);
  }

  method AddAssign4(a: Vec4, b: Vec4) returns (a': Vec4)
    ensures a' == Add4(a, b)
  {
    a' := a;
    a' := a'.(x := a'.x + b.x);
    a' := a'.(y := a'.y + b.y);
    a' := a'.(z := a'.z + b.z);
    a' := a'.(w := a'.w + b.w);
  }

  method SubAssign4(a: Vec4, b: Vec4) returns (a': Vec4)
    ensures a' == Sub4(a, b)
  {
    a' := a;
    a' := a'.(x := a'.x - b.x);
    a' := a'.(y := a'.y - b.y);
    a' := a'.(z := a'.z - b.z);
    a' := a'.(w := a'.w - b.w);
  }

  method MulAssign4(a: Vec4, b: Vec4) returns (a': Vec4)
    ensures a' == Mul4(a, b)
  {
    a' := a;
    a' := a'.(x := a'.x * b.x);
    a' := a'.(y := a'.y * b.y);
    a' := a'.(z := a'.z * b.z);
    a' := a'.(w := a'.w * b.w);
  }

  method DivAssign4(a: Vec4, b: Vec4) returns (a': Vec4)
    requires NonZero4(b)
    ensures a' == Div4(a, b)
  {
    a' := a;
    a' := a'.(x := a'.x / b.x);
    a' := a'.(y := a'.y / b.y);
    a' := a'.(z := a'.z / b.z);
    a' := a'.(w := a'.w / b.w);
  }

  method ScaleAssign4(v: Vec4, f: real) returns (v': Vec4)
    ensures v' == Scale4(v, f)
  {
    v' := v;
    v' := v'.(x := v'.x * f);
    v' := v'.(y := v'.y * f);
    v' := v'.(z := v'.z * f);
    v' := v'.(w := v'.w * f);
  }

  method DivScalarAssign4(v: Vec4, f: real) returns (v': Vec4)
    requires f != 0.0
    ensures v' == DivScalar4(v, f)
  {
    v' := v;
    v' := v'.(x := v'.x / f);
    v' := v'.(y := v'.y / f);
    v' := v'.(z := v'.z / f);
    v' := v'.(w := v'.w / f);
  }

  // ---------------------------------------------------------------- mat4

  /** A 4x4 matrix `m[row][column]`, the layout of the union mat4, held as four rows. */
  datatype Mat4 = Mat4(r0: Vec4, r1: Vec4, r2: Vec4, r3: Vec4)

  function Row(m: Mat4, i: nat): Vec4
    requires i < 4
  {
    if i == 0 then m.r0 else if i == 1 then m.r1 else if i == 2 then m.r2 else m.r3
  }

  /** `m.m[i][j]` */
  function Entry(m: Mat4, i: nat, j: nat): real
    requires i < 4 && j < 4
  {
    At4(Row(m, i), j)
  }

  /** Reference definition: the dot product of row `i` of `m` with `v`, summed term by term. */
  function RowDot(m: Mat4, i: nat, v: Vec4, n: nat): real
    requires i < 4 && n <= 4
  {
    if n == 0 then 0.0 else RowDot(m, i, v, n - 1) + Entry(m, i, n - 1) * At4(v, n - 1)
  }

  /** Reference definition: sum over k < n of a[i][k] * b[k][j]. */
  function ProductTerm(a: Mat4, b: Mat4, i: nat, j: nat, n: nat): real
    requires i < 4 && j < 4 && n <= 4
  {
    if n == 0 then 0.0 else ProductTerm(a, b, i, j, n - 1) + Entry(a, i, n - 1) * Entry(b, n - 1, j)
  }

  /** The four-term dot product the source writes out for each entry. */
  function Dot4(u: Vec4, v: Vec4): real
  {
    u.x * v.x + u.y * v.y + u.z * v.z + u.w * v.w
  }

  /** Column `j` of `m`. */
  function Column(m: Mat4, j: nat): (c: Vec4)
    requires j < 4
    ensures forall k :: 0 <= k < 4 ==> At4(c, k) == Entry(m, k, j)
  {
    Vec4(At4(m.r0, j), At4(m.r1, j), At4(m.r2, j), At4(m.r3, j))
  }

  lemma {:induction false} RowDotIsDot4(m: Mat4, i: nat, v: Vec4)
    requires i < 4
    ensures RowDot(m, i, v, 4) == Dot4(Row(m, i), v)
  {
    var r := Row(m, i);
    assert RowDot(m, i, v, 1) == r.x * v.x;
    assert RowDot(m, i, v, 2) == r.x * v.x + r.y * v.y;
    assert RowDot(m, i, v, 3) == r.x * v.x + r.y * v.y + r.z * v.z;
  }

  lemma {:induction false} ProductTermIsDot4(a: Mat4, b: Mat4, i: nat, j: nat)
    requires i < 4 && j < 4
    ensures ProductTerm(a, b, i, j, 4) == Dot4(Row(a, i), Column(b, j))
  {
    var r := Row(a, i);
    var c := Column(b, j);
    assert ProductTerm(a, b, i, j, 1) == r.x * c.x;
    assert ProductTerm(a, b, i, j, 2) == r.x * c.x + r.y * c.y;
    assert ProductTerm(a, b, i, j, 3) == r.x * c.x + r.y * c.y + r.z * c.z;
  }

  /** mat4 * vec4: each component is a row of `m` dotted with `v`. */
  function MulMat4Vec4(m: Mat4, v: Vec4): (r: Vec4)
    ensures forall i :: 0 <= i < 4 ==> At4(r, i) == RowDot(m, i, v, 4)
  {
    RowDotIsDot4(m, 0, v); RowDotIsDot4(m, 1, v); RowDotIsDot4(m, 2, v); RowDotIsDot4(m, 3, v);
    Vec4(Dot4(m.r0, v), Dot4(m.r1, v), Dot4(m.r2, v), Dot4(m.r3, v))
  }

  /** Row `i` of `a * b`. */
  function ProductRow(a: Mat4, b: Mat4, i: nat): (r: Vec4)
    requires i < 4
    ensures forall j :: 0 <= j < 4 ==> At4(r, j) == ProductTerm(a, b, i, j, 4)
  {
    ProductTermIsDot4(a, b, i, 0); ProductTermIsDot4(a, b, i, 1);
    ProductTermIsDot4(a, b, i, 2); ProductTermIsDot4(a, b, i, 3);
    var row := Row(a, i);
    Vec4(Dot4(row, Column(b, 0)), Dot4(row, Column(b, 1)), Dot4(row, Column(b, 2)), Dot4(row, Column(b, 3)))
  }

  /** mat4 * mat4: every entry is the sum over k of a[i][k] * b[k][j]. */
  function MulMat4(a: Mat4, b: Mat4): (r: Mat4)
    ensures forall i, j :: 0 <= i < 4 && 0 <= j < 4 ==> Entry(r, i, j) == ProductTerm(a, b, i, j, 4)
  {
    var r := Mat4(ProductRow(a, b, 0), ProductRow(a, b, 1), ProductRow(a, b, 2), ProductRow(a, b, 3));
    assert forall i :: 0 <= i < 4 ==> Row(r, i) == ProductRow(a, b, i);
    r
  }

  /** `mat4_identity`, and the default projection of a RenderState. */
  function Identity(): (r: Mat4)
    ensures forall i, j :: 0 <= i < 4 && 0 <= j < 4 ==> Entry(r, i, j) == (if i == j then 1.0 else 0.0)
  {
    Mat4(Vec4(1.0, 0.0, 0.0, 0.0),
         Vec4(0.0, 1.0, 0.0, 0.0),
         Vec4(0.0, 0.0, 1.0, 0.0),
         Vec4(0.0, 0.0, 0.0, 1.0))
  }

  lemma IdentityIsNeutral(m: Mat4, v: Vec4)
    ensures MulMat4Vec4(Identity(), v) == v
    ensures MulMat4(Identity(), m) == m
    ensures MulMat4(m, Identity()) == m
  {
    var I := Identity();
    assert ProductRow(I, m, 0) == m.r0 && ProductRow(I, m, 1) == m.r1;
    assert ProductRow(I, m, 2) == m.r2 && ProductRow(I, m, 3) == m.r3;
    assert ProductRow(m, I, 0) == m.r0 && ProductRow(m, I, 1) == m.r1;
    assert ProductRow(m, I, 2) == m.r2 && ProductRow(m, I, 3) == m.r3;
  }

  /**
   * `orthographic(left, right, top, bottom, near, far)`: scale and translate each axis so
   * that the given box maps onto [-1, 1]^3.
   */
  function Orthographic(left: real, right: real, top: real, bottom: real, near: real, far: real): (r: Mat4)
    requires right != left && top != bottom && far != near
    ensures r.r3 == Vec4(0.0, 0.0, 0.0, 1.0)
    ensures r.r0.y == r.r0.z == r.r1.x == r.r1.z == r.r2.x == r.r2.y == 0.0
  {
    var dx := right - left;
    var dy := top - bottom;
    var dz := far - near;
    var sx := 2.0 / dx;
    var sy := 2.0 / dy;
    var sz := 2.0 / dz;
    var tx := -(right + left) / dx;
    var ty := -(top + bottom) / dy;
    var tz := -(far + near) / dz;
    Mat4(Vec4(sx, 0.0, 0.0, tx),
         Vec4(0.0, sy, 0.0, ty),
         Vec4(0.0, 0.0, sz, tz),
         Vec4(0.0, 0.0, 0.0, 1.0))
  }

  /** One axis of the orthographic map: `lo` goes to -1 and `hi` to +1. */
  lemma AxisMapsEnds(lo: real, hi: real)
    requires hi != lo
    ensures 2.0 / (hi - lo) * lo + -(hi + lo) / (hi - lo) == -1.0
    ensures 2.0 / (hi - lo) * hi + -(hi + lo) / (hi - lo) == 1.0
  {
    var d := hi - lo;
    assert 2.0 / d * lo + -(hi + lo) / d == (2.0 * lo - (hi + lo)) / d;
    assert 2.0 / d * hi + -(hi + lo) / d == (2.0 * hi - (hi + lo)) / d;
  }

  /** The orthographic box's faces land on the faces of clip space, and w stays 1. */
  lemma OrthographicMapsBox(left: real, right: real, top: real, bottom: real, near: real, far: real,
                            x: real, y: real, z: real)
    requires right != left && top != bottom && far != near
    ensures var o := Orthographic(left, right, top, bottom, near, far);
      && MulMat4Vec4(o, Vec4(left, y, z, 1.0)).x == -1.0
      && MulMat4Vec4(o, Vec4(right, y, z, 1.0)).x == 1.0
      && MulMat4Vec4(o, Vec4(x, bottom, z, 1.0)).y == -1.0
      && MulMat4Vec4(o, Vec4(x, top, z, 1.0)).y == 1.0
      && MulMat4Vec4(o, Vec4(x, y, near, 1.0)).z == -1.0
      && MulMat4Vec4(o, Vec4(x, y, far, 1.0)).z == 1.0
      && MulMat4Vec4(o, Vec4(x, y, z, 1.0)).w == 1.0
  {
    var o := Orthographic(left, right, top, bottom, near, far);
    assert Dot4(o.r3, Vec4(x, y, z, 1.0)) == 1.0;
    AxisMapsEnds(left, right);
    AxisMapsEnds(bottom, top);
    AxisMapsEnds(near, far);
  }
}
