// The bookkeeping of the OpenGL backend (implementation/backend_opengl.cpp): the table that
// links each (vertex shader, pixel shader) pair into one program, the selection done when a
// render state is applied, the contents of mesh buffers, and the texture-format table.
//
// The GL calls themselves are not part of this model. Shaders, programs, textures and
// framebuffers are known by their handles; whether a program links, and the name
// `glCreateProgram` gives it, is the `link` parameter.

module Backend {
  import opened Vectors
  import opened Sampling
  import opened ParticleSystems

  /** `shader_linkage_table_capacity`. */
  const LinkageCapacity: nat := 128

  /** `sizeof(Vertex)`: nine floats. */
  const VertexBytes: nat := 36

  /** `sizeof(uint32_t)`, the size of one index. */
  const IndexBytes: nat := 4

  /** A shader object, known by its identity. */
  type ShaderId = nat

  /** One `ShaderLinkage`: the linked program and the two shaders it was linked from. */
  datatype Linkage = Linkage(program: nat, vertexShader: ShaderId, pixelShader: ShaderId)

  predicate Keyed(e: Linkage, vertexShader: ShaderId, pixelShader: ShaderId)
  {
    e.vertexShader == vertexShader && e.pixelShader == pixelShader
  }

  /** No two entries were linked from the same pair of shaders. */
  predicate KeysDistinct(s: seq<Linkage>)
  {
    forall i, j :: 0 <= i < j < |s| ==> !Keyed(s[j], s[i].vertexShader, s[i].pixelShader)
  }

  /** The table scan: the first entry linked from the given pair, if any. */
  function Find(s: seq<Linkage>, vertexShader: ShaderId, pixelShader: ShaderId): (r: Option<nat>)
    ensures r.Some? ==> r.value < |s| && Keyed(s[r.value], vertexShader, pixelShader)
    ensures r.Some? ==> forall j :: 0 <= j < r.value ==> !Keyed(s[j], vertexShader, pixelShader)
    ensures r.None? ==> forall j :: 0 <= j < |s| ==> !Keyed(s[j], vertexShader, pixelShader)
  {
    if s == [] then None
    else if Keyed(s[0], vertexShader, pixelShader) then Some(0)
    else match Find(s[1..], vertexShader, pixelShader)
      case None => None
      case Some(i) => Some(i + 1)
  }

  /** In a table whose keys are distinct, every entry is the one found for its own pair. */
  lemma {:induction false} FindEachEntry(s: seq<Linkage>, i: nat)
    requires KeysDistinct(s) && i < |s|
    ensures Find(s, s[i].vertexShader, s[i].pixelShader) == Some(i)
  {
    assert Keyed(s[i], s[i].vertexShader, s[i].pixelShader);
  }

  /**
   * Appending an entry for a pair the scan did not find keeps the keys distinct, and the
   * scan then finds the new entry at the end.
   */
  lemma {:induction false} AppendKeepsKeysDistinct(s: seq<Linkage>, e: Linkage)
    requires KeysDistinct(s)
    requires Find(s, e.vertexShader, e.pixelShader).None?
    ensures KeysDistinct(s + [e])
    ensures Find(s + [e], e.vertexShader, e.pixelShader) == Some(|s|)
  {
    var t := s + [e];
    forall i, j | 0 <= i < j < |t|
      ensures !Keyed(t[j], t[i].vertexShader, t[i].pixelShader)
    {
      if j == |s| {
        assert !Keyed(s[i], e.vertexShader, e.pixelShader);
      } else {
        assert t[i] == s[i] && t[j] == s[j];
      }
    }
    assert KeysDistinct(t);
    FindEachEntry(t, |s|);
  }

  /** A framebuffer object and the texture drawn into. */
  datatype RenderTarget = RenderTarget(fbo: nat, colorAttachment: nat)

  /** A `Rect` of floats: corner and size. */
  datatype Rect = Rect(x: real, y: real, w: real, h: real)

  /**
   * `RenderState`: optional shaders, target and texture (null is `None`), the viewport and
   * the projection. The header shipped with the library omits the viewport, but the backend
   * reads it and every caller sets it.
   */
  datatype RenderState = RenderState(
    vertexShader: Option<ShaderId>,
    pixelShader: Option<ShaderId>,
    renderTarget: Option<RenderTarget>,
    texture0: Option<nat>,
    viewport: Rect,
    projection: Mat4)

  /** The header's default render state: no shaders, no target, no texture, the identity. */
  const DefaultRenderState := RenderState(None, None, None, None, Rect(0.0, 0.0, 0.0, 0.0), Identity())

  datatype VertexArray = DefaultVertexArray | InstancingVertexArray

  /** The integer rectangle `glViewport` receives. */
  datatype PixelRect = PixelRect(x: int, y: int, w: int, h: int)

  /** The float viewport passed to `glViewport`'s integer parameters: each part truncated. */
  function ViewportPixels(r: Rect): (p: PixelRect)
    ensures r.x >= 0.0 && r.y >= 0.0 ==> p.x as real <= r.x < p.x as real + 1.0 && p.y as real <= r.y < p.y as real + 1.0
    ensures r.w >= 0.0 && r.h >= 0.0 ==> p.w as real <= r.w < p.w as real + 1.0 && p.h as real <= r.h < p.h as real + 1.0
  {
    PixelRect(Truncate(r.x), Truncate(r.y), Truncate(r.w), Truncate(r.h))
  }

  /** A whole-pixel viewport reaches GL exactly as given. */
  lemma WholeViewport(x: nat, y: nat, w: nat, h: nat)
    ensures ViewportPixels(Rect(x as real, y as real, w as real, h as real)) == PixelRect(x, y, w, h)
  {
  }

  /**
   * What `opengl_apply_render_state` leaves bound: the program, the framebuffer (0 is the
   * window), the viewport, the projection uniform, the `use_texture` uniform, the texture
   * bound to unit 0 (`None`: whatever was bound before) and the vertex array.
   */
  datatype Binding = Binding(
    program: nat,
    framebuffer: nat,
    viewport: PixelRect,
    projection: Mat4,
    useTexture: bool,
    texture: Option<nat>,
    vertexArray: VertexArray)

  /**
   * Everything `opengl_apply_render_state` binds besides the program: the target's
   * framebuffer or the window's, the viewport, the projection, `use_texture` exactly when a
   * texture is given, that texture, and the vertex array the instancing flag picks.
   */
  predicate Applied(state: RenderState, instancing: bool, b: Binding)
  {
    && b.framebuffer == (if state.renderTarget.None? then 0 else state.renderTarget.value.fbo)
    && b.viewport == ViewportPixels(state.viewport)
    && b.projection == state.projection
    && (b.useTexture <==> state.texture0.Some?)
    && b.texture == state.texture0
    && b.vertexArray == (if instancing then InstancingVertexArray else DefaultVertexArray)
  }

  /**
   * The program selection of `opengl_get_or_create_shader_program` as seen by its callers,
   * over the table `entries` of which the first `length` are in use: a pair already in the
   * table binds its program and changes nothing; otherwise the pair links, its program is
   * bound and the table grows by that one entry.
   */
  ghost predicate Selected(entries: seq<Linkage>, length: nat, entries': seq<Linkage>, length': nat,
                           v: ShaderId, p: ShaderId, link: (ShaderId, ShaderId) -> Option<nat>, program: nat)
    requires length <= |entries|
  {
    var hit := Find(entries[..length], v, p);
    if hit.Some? then
      program == entries[hit.value].program && length' == length && entries' == entries
    else
      && link(v, p).Some? && program == link(v, p).value && length < |entries|
      && length' == length + 1 && entries' == entries[length := Linkage(program, v, p)]
  }

  /**
   * After a selection the pair is in the table with the bound program, and the keys stay
   * distinct, so applying the same state again binds the same program and leaves the table
   * as it is.
   */
  lemma {:induction false} SelectionIsStable(entries: seq<Linkage>, length: nat, entries': seq<Linkage>, length': nat,
                                             v: ShaderId, p: ShaderId, link: (ShaderId, ShaderId) -> Option<nat>, program: nat)
    requires length <= |entries| && KeysDistinct(entries[..length])
    requires Selected(entries, length, entries', length', v, p, link, program)
    ensures length' <= |entries'| && KeysDistinct(entries'[..length'])
    ensures Find(entries'[..length'], v, p).Some?
    ensures Selected(entries', length', entries', length', v, p, link, program)
  {
    var hit := Find(entries[..length], v, p);
    if hit.None? {
      var e := Linkage(program, v, p);
      assert entries'[..length'] == entries[..length] + [e];
      AppendKeepsKeysDistinct(entries[..length], e);
    }
  }

  /** The globals of backend_opengl.cpp: the three default shaders and the linkage table. */
  class ShaderLinkageTable {
    const defaultInstancingVertexShader: ShaderId
    const defaultVertexShader: ShaderId
    const defaultPixelShader: ShaderId
    var length: nat
    const entries: array<Linkage>

    ghost predicate Valid()
      reads this, entries
    {
      entries.Length == LinkageCapacity && length <= LinkageCapacity && KeysDistinct(entries[..length])
    }

    /** `initialize` after the three default shaders compiled: an empty table. */
    constructor (instancingVertexShader: ShaderId, vertexShader: ShaderId, pixelShader: ShaderId)
      ensures Valid() && length == 0
      ensures defaultInstancingVertexShader == instancingVertexShader
      ensures defaultVertexShader == vertexShader && defaultPixelShader == pixelShader
    {
      defaultInstancingVertexShader := instancingVertexShader;
      defaultVertexShader := vertexShader;
      defaultPixelShader := pixelShader;
      length := 0;
      entries := new Linkage[LinkageCapacity](_ => Linkage(0, 0, 0));
    }

    /** The vertex shader used for a request: a null one becomes the matching default. */
    function VertexShaderFor(requested: Option<ShaderId>, instancing: bool): (s: ShaderId)
      ensures requested.Some? ==> s == requested.value
      ensures requested.None? && instancing ==> s == defaultInstancingVertexShader
      ensures requested.None? && !instancing ==> s == defaultVertexShader
    {
      match requested
      case Some(s) => s
      case None => if instancing then defaultInstancingVertexShader else defaultVertexShader
    }

    /** The pixel shader used for a request: a null one becomes the default. */
    function PixelShaderFor(requested: Option<ShaderId>): (s: ShaderId)
      ensures requested.Some? ==> s == requested.value
      ensures requested.None? ==> s == defaultPixelShader
    {
      match requested
      case Some(s) => s
      case None => defaultPixelShader
    }

    /**
     * `opengl_get_or_create_shader_program`. Null shaders are replaced by the defaults before
     * the scan. A pair already in the table returns its entry and changes nothing. Otherwise
     * the table must have room (the source asserts it); a program that fails to link returns
     * null and changes nothing; one that links is appended.
     */
    method GetOrCreate(vertexShader: Option<ShaderId>, pixelShader: Option<ShaderId>, instancing: bool,
                       link: (ShaderId, ShaderId) -> Option<nat>) returns (r: Option<nat>)
      requires Valid()
      requires Find(entries[..length], VertexShaderFor(vertexShader, instancing), PixelShaderFor(pixelShader)).Some?
        || length < LinkageCapacity
      modifies this`length, entries
      ensures Valid()
      ensures var v, p := VertexShaderFor(vertexShader, instancing), PixelShaderFor(pixelShader);
        var hit := Find(old(entries[..length]), v, p);
        if hit.Some? then
          r == hit && length == old(length) && entries[..] == old(entries[..])
        else if link(v, p).None? then
          r.None? && length == old(length) && entries[..] == old(entries[..])
        else
          && r == Some(old(length)) && length == old(length) + 1
          && entries[..] == old(entries[..])[old(length) := Linkage(link(v, p).value, v, p)]
    {
      var v, p := VertexShaderFor(vertexShader, instancing), PixelShaderFor(pixelShader);
      ghost var s := entries[..length];
      var i := 0;
      while i < length
        invariant 0 <= i <= length
        invariant forall j :: 0 <= j < i ==> !Keyed(entries[j], v, p)
      {
        if Keyed(entries[i], v, p) {
          assert s[i] == entries[i];
          assert forall j :: 0 <= j < i ==> s[j] == entries[j];
          return Some(i);
        }
        i := i + 1;
      }
      assert forall j :: 0 <= j < |s| ==> s[j] == entries[j];
      var program := link(v, p);
      if program.None? {
        return None;
      }
      var e := Linkage(program.value, v, p);
      AppendKeepsKeysDistinct(s, e);
      entries[length] := e;
      length := length + 1;
      assert entries[..length] == s + [e];
      r := Some(length - 1);
    }

    /**
     * `opengl_apply_render_state`. The source uses the linkage without a null check, so the
     * pair must be in the table or link into a free slot. The program is the selected one,
     * and the rest of the binding is `Applied`.
     */
    method ApplyRenderState(state: RenderState, instancing: bool, link: (ShaderId, ShaderId) -> Option<nat>)
      returns (b: Binding)
      requires Valid()
      requires var v, p := VertexShaderFor(state.vertexShader, instancing), PixelShaderFor(state.pixelShader);
        Find(entries[..length], v, p).Some? || (length < LinkageCapacity && link(v, p).Some?)
      modifies this`length, entries
      ensures Valid()
      ensures Selected(old(entries[..]), old(length), entries[..], length,
        VertexShaderFor(state.vertexShader, instancing), PixelShaderFor(state.pixelShader), link, b.program)
      ensures Applied(state, instancing, b)
    {
      var linkage := GetOrCreate(state.vertexShader, state.pixelShader, instancing, link);
      var e := entries[linkage.value];
      var framebuffer := if state.renderTarget.Some? then state.renderTarget.value.fbo else 0;
      b := Binding(e.program, framebuffer, ViewportPixels(state.viewport), state.projection,
        state.texture0 != None, state.texture0, if instancing then InstancingVertexArray else DefaultVertexArray);
    }

    /**
     * `mesh_render`: the state is applied without instancing and `index_count` indices of
     * the mesh are drawn.
     */
    method RenderMesh(mesh: Mesh, state: RenderState, link: (ShaderId, ShaderId) -> Option<nat>)
      returns (b: Binding, indices: nat)
      requires Valid()
      requires var v, p := VertexShaderFor(state.vertexShader, false), PixelShaderFor(state.pixelShader);
        Find(entries[..length], v, p).Some? || (length < LinkageCapacity && link(v, p).Some?)
      modifies this`length, entries
      ensures Valid()
      ensures Selected(old(entries[..]), old(length), entries[..], length,
        VertexShaderFor(state.vertexShader, false), PixelShaderFor(state.pixelShader), link, b.program)
      ensures Applied(state, false, b) && indices == mesh.indexCount
    {
      b := ApplyRenderState(state, false, link);
      indices := mesh.indexCount;
    }

    /**
     * The drawing half of `particle_system_upload_and_render`: the state is applied with
     * instancing, and the mesh's indices are drawn once per slot, dead slots included.
     */
    method RenderParticles(system: ParticleSystem, mesh: Mesh, state: RenderState, link: (ShaderId, ShaderId) -> Option<nat>)
      returns (b: Binding, indices: nat, instances: nat)
      requires Valid() && system.Valid()
      requires var v, p := VertexShaderFor(state.vertexShader, true), PixelShaderFor(state.pixelShader);
        Find(entries[..length], v, p).Some? || (length < LinkageCapacity && link(v, p).Some?)
      modifies this`length, entries
      ensures Valid()
      ensures Selected(old(entries[..]), old(length), entries[..], length,
        VertexShaderFor(state.vertexShader, true), PixelShaderFor(state.pixelShader), link, b.program)
      ensures Applied(state, true, b) && indices == mesh.indexCount && instances == system.count
    {
      b := ApplyRenderState(state, true, link);
      indices := mesh.indexCount;
      instances := system.count;
    }
  }

  /** `Vertex`: position, colour and texture coordinates. */
  datatype Vertex = Vertex(position: Vec3, color: Vec4, uv: Vec2)

  /** The usage hint given to `glBufferData`. */
  datatype Usage = StreamDraw | StaticDraw

  /** A new buffer of `n` elements: the first `n` given ones, or unspecified (`None`) without data. */
  function Initial<T>(data: Option<seq<T>>, n: nat): (r: seq<Option<T>>)
    requires data.Some? ==> |data.value| >= n
    ensures |r| == n
    ensures forall i :: 0 <= i < n ==> r[i] == if data.Some? then Some(data.value[i]) else None
  {
    seq(n, i requires 0 <= i < n => if data.Some? then Some(data.value[i]) else None)
  }

  /** `glBufferSubData` at offset 0: `data` replaces the front of the buffer. */
  function Written<T>(buffer: seq<Option<T>>, data: seq<T>): (r: seq<Option<T>>)
    requires |data| <= |buffer|
    ensures |r| == |buffer|
    ensures forall i :: 0 <= i < |data| ==> r[i] == Some(data[i])
    ensures forall i :: |data| <= i < |buffer| ==> r[i] == buffer[i]
  {
    seq(|buffer|, i requires 0 <= i < |buffer| => if i < |data| then Some(data[i]) else buffer[i])
  }

  /** A write that covers an earlier one leaves no trace of the earlier one. */
  lemma {:induction false} WrittenOverwrites<T>(buffer: seq<Option<T>>, first: seq<T>, second: seq<T>)
    requires |first| <= |second| <= |buffer|
    ensures Written(Written(buffer, first), second) == Written(buffer, second)
  {
    var a, b := Written(Written(buffer, first), second), Written(buffer, second);
    assert |a| == |b|;
    forall i | 0 <= i < |a|
      ensures a[i] == b[i]
    {
    }
  }

  /** A mesh: its two GPU buffers, their fixed element counts and their usage hint. */
  class Mesh {
    const vertexCount: nat
    const indexCount: nat
    const usage: Usage
    var vertexData: seq<Option<Vertex>>
    var indexData: seq<Option<nat>>

    ghost predicate Valid()
      reads this
    {
      |vertexData| == vertexCount && |indexData| == indexCount
    }

    /**
     * `mesh_create`: buffers of the given counts, filled from the given data if any. The
     * usage is STREAM exactly when no vertices are given, for both buffers.
     */
    constructor Create(vertexCount: nat, indexCount: nat, vertices: Option<seq<Vertex>>, indices: Option<seq<nat>>)
      requires vertexCount * VertexBytes < Uint32Modulus && indexCount * IndexBytes < Uint32Modulus
      requires vertices.Some? ==> |vertices.value| >= vertexCount
      requires indices.Some? ==> |indices.value| >= indexCount
      ensures Valid()
      ensures this.vertexCount == vertexCount && this.indexCount == indexCount
      ensures usage == (if vertices.None? then StreamDraw else StaticDraw)
      ensures vertexData == Initial(vertices, vertexCount) && indexData == Initial(indices, indexCount)
    {
      this.vertexCount := vertexCount;
      this.indexCount := indexCount;
      usage := if vertices == None then StreamDraw else StaticDraw;
      vertexData := Initial(vertices, vertexCount);
      indexData := Initial(indices, indexCount);
    }

    /**
     * `mesh_upload`: the counts may not exceed the mesh's (the source asserts it); the first
     * `vertexCount` vertices and `indexCount` indices are replaced, the rest kept.
     */
    method Upload(vertexCount: nat, vertices: seq<Vertex>, indexCount: nat, indices: seq<nat>)
      requires Valid()
      requires vertexCount <= this.vertexCount && indexCount <= this.indexCount
      requires |vertices| >= vertexCount && |indices| >= indexCount
      modifies this
      ensures Valid()
      ensures vertexData == Written(old(vertexData), vertices[..vertexCount])
      ensures indexData == Written(old(indexData), indices[..indexCount])
    {
      vertexData := Written(vertexData, vertices[..vertexCount]);
      indexData := Written(indexData, indices[..indexCount]);
    }
  }

  /** A full upload leaves every vertex of the mesh specified. */
  lemma FullUploadSpecifiesAll<T>(buffer: seq<Option<T>>, data: seq<T>)
    requires |data| == |buffer|
    ensures forall i :: 0 <= i < |buffer| ==> Written(buffer, data)[i] == Some(data[i])
  {
  }

  /**
   * The texture formats `opengl_get_texture_format_info` is asked for. ALPHA_FLOAT32 is
   * handled there although include/sparkles.h does not declare it; any other value of the
   * enumeration is `UnlistedFormat`.
   */
  datatype TextureFormat = NoFormat | RgbaUint8 | RgbaFloat16 | AlphaFloat32 | UnlistedFormat(code: int)

  datatype GlEnum =
    | GlRed | GlGreen | GlBlue | GlAlpha | GlOne
    | GlRgba | GlRgba8 | GlRgba16F | GlR32F
    | GlUnsignedByte | GlHalfFloat | GlFloat

  /** `OpenGLTextureFormatInfo`. */
  datatype FormatInfo = FormatInfo(format: GlEnum, internalFormat: GlEnum, pixelType: GlEnum, swizzle: seq<GlEnum>)

  const IdentitySwizzle := [GlRed, GlGreen, GlBlue, GlAlpha]

  /**
   * `opengl_get_texture_format_info`: the GL triple for each listed format, with the
   * identity swizzle except for ALPHA_FLOAT32, which reads (1, 1, 1, red). NONE and any
   * unlisted value fail the source's assertion and are `None` here.
   */
  function TextureFormatInfo(f: TextureFormat): (r: Option<FormatInfo>)
    ensures r.Some? <==> f in {RgbaUint8, RgbaFloat16, AlphaFloat32}
    ensures r.Some? ==> |r.value.swizzle| == 4
  {
    match f
    case RgbaUint8 => Some(FormatInfo(GlRgba, GlRgba8, GlUnsignedByte, IdentitySwizzle))
    case RgbaFloat16 => Some(FormatInfo(GlRgba, GlRgba16F, GlHalfFloat, IdentitySwizzle))
    case AlphaFloat32 => Some(FormatInfo(GlRed, GlR32F, GlFloat, [GlOne, GlOne, GlOne, GlRed]))
    case _ => None
  }

  /**
   * The texel a shader reads from stored channels (r, g, b, a): a one-channel RED texture
   * fills green and blue with 0 and alpha with 1 before the swizzle.
   */
  function Expanded(format: GlEnum, stored: Vec4): Vec4
  {
    if format == GlRed then Vec4(stored.x, 0.0, 0.0, 1.0) else stored
  }

  function Channel(source: GlEnum, texel: Vec4): real
  {
    match source
    case GlRed => texel.x
    case GlGreen => texel.y
    case GlBlue => texel.z
    case GlAlpha => texel.w
    case GlOne => 1.0
    case _ => 0.0
  }

  /** The colour a shader samples from a texture with the given format info. */
  function Sampled(info: FormatInfo, stored: Vec4): Vec4
    requires |info.swizzle| == 4
  {
    var t := Expanded(info.format, stored);
    Vec4(Channel(info.swizzle[0], t), Channel(info.swizzle[1], t), Channel(info.swizzle[2], t), Channel(info.swizzle[3], t))
  }

  /**
   * What the formats mean to a shader: the RGBA formats are read as stored, and an
   * ALPHA_FLOAT32 texture is read as white with its one channel as alpha.
   */
  lemma SampledColors(f: TextureFormat, stored: Vec4)
    requires TextureFormatInfo(f).Some?
    ensures f != AlphaFloat32 ==> Sampled(TextureFormatInfo(f).value, stored) == stored
    ensures f == AlphaFloat32 ==> Sampled(TextureFormatInfo(f).value, stored) == Vec4(1.0, 1.0, 1.0, stored.x)
  {
  }
}
