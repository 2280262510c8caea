/**
 * The point light and its cube shadow map: default settings, the six cube
 * face cameras, and the uniform uploads that bind it for writing the shadow
 * map (one face at a time) and for reading it in the colour pass.
 */
module Light {
  import opened Trace
  import opened Pipelines

  // ---- constants of the shadow protocol ----

  const FaceCount: nat := 6
  const ShadowSize: nat := 4096

  /** Uniform locations the shaders read. */
  const ViewSlot: nat := 8
  const ProjectionSlot: nat := 12
  const PositionSlot: nat := 30
  const ColorSlot: nat := 31
  const RangeSlot: nat := 32
  /** The texture unit the colour pass samples the shadow cube map from. */
  const ShadowUnit: nat := 1

  const DefaultPosition := Vec3(3.0, 3.0, 0.0)
  const DefaultColor := Vec3(0.992, 0.984, 0.827)
  const DefaultRange: real := 100.0
  const FieldOfView: real := 90.0
  const NearPlane: real := 1.0

  // ---- the cube face table ----

  /** The direction face `face` looks along: +X, -X, +Y, -Y, +Z, -Z. */
  function LookAxis(face: nat): (r: Vec3)
    requires face < FaceCount
    ensures UnitAxis(r)
  {
    match face
    case 0 => Vec3(1.0, 0.0, 0.0)
    case 1 => Vec3(-1.0, 0.0, 0.0)
    case 2 => Vec3(0.0, 1.0, 0.0)
    case 3 => Vec3(0.0, -1.0, 0.0)
    case 4 => Vec3(0.0, 0.0, 1.0)
    case _ => Vec3(0.0, 0.0, -1.0)
  }

  /** The up vector of face `face`: -Y for the four horizontal faces, +Z and -Z for +Y and -Y. */
  function UpAxis(face: nat): (r: Vec3)
    requires face < FaceCount
    ensures UnitAxis(r)
  {
    match face
    case 2 => Vec3(0.0, 0.0, 1.0)
    case 3 => Vec3(0.0, 0.0, -1.0)
    case _ => Vec3(0.0, -1.0, 0.0)
  }

  /** The view matrix of face `face` for a light at `eye`. */
  function FaceView(eye: Vec3, face: nat): (r: Mat4)
    requires face < FaceCount
    ensures r.LookAt? && r.eye == eye && Sub(r.center, eye) == LookAxis(face) && r.up == UpAxis(face)
  {
    LookAt(eye, Add(eye, LookAxis(face)), UpAxis(face))
  }

  /** A 90 degree perspective over the whole shadow map, from the near plane at 1 out to the light's range. */
  function ShadowProjection(width: nat, height: nat, range: real): (r: Mat4)
    ensures r.PerspectiveFov? && r.fovDegrees == 90.0 && r.near == 1.0 && r.far == range
    ensures r.width == width as real && r.height == height as real
  {
    PerspectiveFov(FieldOfView, width as real, height as real, NearPlane, range)
  }

  /** One of the six signed unit axes. */
  predicate UnitAxis(v: Vec3) {
    ((v.x == 1.0 || v.x == -1.0) && v.y == 0.0 && v.z == 0.0) ||
    (v.x == 0.0 && (v.y == 1.0 || v.y == -1.0) && v.z == 0.0) ||
    (v.x == 0.0 && v.y == 0.0 && (v.z == 1.0 || v.z == -1.0))
  }

  function Neg(v: Vec3): Vec3 {
    Vec3(-v.x, -v.y, -v.z)
  }

  /** Every face looks along a unit axis, and its up vector is a unit axis too. */
  lemma AxesAreUnit(face: nat)
    requires face < FaceCount
    ensures UnitAxis(LookAxis(face)) && UnitAxis(UpAxis(face))
  {
    if face == 0 {
    } else if face == 1 {
    } else if face == 2 {
    } else if face == 3 {
    } else if face == 4 {
    } else {
    }
  }

  /** The up vector of every face is orthogonal to its look direction, so never parallel to it. */
  lemma UpOrthogonalToLook(face: nat)
    requires face < FaceCount
    ensures Dot(LookAxis(face), UpAxis(face)) == 0.0
  {
    if face == 0 {
      assert Dot(LookAxis(0), UpAxis(0)) == 0.0;
    } else if face == 1 {
      assert Dot(LookAxis(1), UpAxis(1)) == 0.0;
    } else if face == 2 {
      assert Dot(LookAxis(2), UpAxis(2)) == 0.0;
    } else if face == 3 {
      assert Dot(LookAxis(3), UpAxis(3)) == 0.0;
    } else if face == 4 {
      assert Dot(LookAxis(4), UpAxis(4)) == 0.0;
    } else {
      assert Dot(LookAxis(5), UpAxis(5)) == 0.0;
    }
  }

  /** The six faces look in six different directions, in opposite pairs. */
  lemma FacesLookApart(f: nat, g: nat)
    requires f < FaceCount && g < FaceCount
    ensures f != g ==> LookAxis(f) != LookAxis(g)
    ensures f % 2 == 0 && g == f + 1 ==> LookAxis(g) == Neg(LookAxis(f))
  {
    if f == 0 {
    } else if f == 1 {
    } else if f == 2 {
    } else if f == 3 {
    } else if f == 4 {
    } else {
    }
  }

  /** A face view looks from the light's position one unit along its axis, with an up orthogonal to that. */
  lemma FaceViewLooksOutward(eye: Vec3, face: nat)
    requires face < FaceCount
    ensures FaceView(eye, face).eye == eye
    ensures Sub(FaceView(eye, face).center, eye) == LookAxis(face)
    ensures Dot(Sub(FaceView(eye, face).center, eye), FaceView(eye, face).up) == 0.0
  {
    var v := FaceView(eye, face);
    UpOrthogonalToLook(face);
    assert Sub(v.center, eye) == LookAxis(face) && v.up == UpAxis(face);
  }

  // ---- what the bind calls issue ----

  /** The fields the bind calls read, as one value. */
  datatype LightState = LightState(
    position: Vec3, color: Vec3, range: real,
    width: nat, height: nat, texture: Handle,
    projection: Mat4, views: seq<Mat4>)

  /** Light::init's GL calls: a cube map texture with one 32-bit depth level. */
  function AfterInit(t: Log, texture: Handle, width: nat, height: nat): Log {
    t.Then(CreateCubeTexture(texture)).Then(TextureStorage(texture, 1, Depth32F, width, height))
  }

  /** The render-target calls of bind_shadow_write: viewport, attach, depth clear. */
  function AfterShadowTarget(t: Log, s: LightState, framebuffer: Handle, face: nat): Log {
    t.Then(Viewport(0, 0, s.width, s.height))
      .Then(AttachDepthLayer(framebuffer, s.texture, 0, face))
      .Then(Clear(DepthOnly))
  }

  /** The uploads of bind_shadow_write, in order. */
  function ShadowWriteUniforms(t: Log, s: LightState, face: nat): Log
    requires face < |s.views|
  {
    t.Then(UniformMatrix(ViewSlot, s.views[face]))
      .Then(UniformMatrix(ProjectionSlot, s.projection))
      .Then(UniformVector(PositionSlot, s.position))
      .Then(UniformScalar(RangeSlot, s.range))
  }

  /** Light::bind_shadow_write: render into cube layer `face` as that face's camera. */
  function AfterShadowWrite(t: Log, s: LightState, framebuffer: Handle, face: nat): Log
    requires face < |s.views|
  {
    ShadowWriteUniforms(AfterShadowTarget(t, s, framebuffer, face), s, face)
  }

  /** The uploads of bind_shadow_read, in order. */
  function ShadowReadUniforms(t: Log, s: LightState): Log {
    t.Then(UniformVector(PositionSlot, s.position))
      .Then(UniformVector(ColorSlot, s.color))
      .Then(UniformScalar(RangeSlot, s.range))
  }

  /** Light::bind_shadow_read: sample the cube map and light the scene. */
  function AfterShadowRead(t: Log, s: LightState): Log {
    ShadowReadUniforms(t.Then(BindTextureUnit(ShadowUnit, s.texture)), s)
  }

  /** The uniform location an upload writes. */
  function UniformSlot(e: Event): Option<nat> {
    if e.UniformMatrix? || e.UniformVector? || e.UniformScalar? then Some(e.slot) else None
  }

  lemma TargetKinds(t: Log, s: LightState, framebuffer: Handle, face: nat, k: Kind)
    ensures Filter(AfterShadowTarget(t, s, framebuffer, face), k)
         == if k == Targets then Filter(t, k).Then(Viewport(0, 0, s.width, s.height)).Then(Clear(DepthOnly))
            else if k == Attachments then Filter(t, k).Then(AttachDepthLayer(framebuffer, s.texture, 0, face))
            else Filter(t, k)
  {
    var t1 := t.Then(Viewport(0, 0, s.width, s.height));
    var t2 := t1.Then(AttachDepthLayer(framebuffer, s.texture, 0, face));
    FilterThen(t, Viewport(0, 0, s.width, s.height), k);
    FilterThen(t1, AttachDepthLayer(framebuffer, s.texture, 0, face), k);
    FilterThen(t2, Clear(DepthOnly), k);
  }

  lemma WriteUniformKinds(t: Log, s: LightState, face: nat, k: Kind)
    requires face < |s.views|
    ensures Filter(ShadowWriteUniforms(t, s, face), k)
         == if k == Uniforms then ShadowWriteUniforms(Filter(t, k), s, face) else Filter(t, k)
  {
    var t1 := t.Then(UniformMatrix(ViewSlot, s.views[face]));
    var t2 := t1.Then(UniformMatrix(ProjectionSlot, s.projection));
    var t3 := t2.Then(UniformVector(PositionSlot, s.position));
    FilterThen(t, UniformMatrix(ViewSlot, s.views[face]), k);
    FilterThen(t1, UniformMatrix(ProjectionSlot, s.projection), k);
    FilterThen(t2, UniformVector(PositionSlot, s.position), k);
    FilterThen(t3, UniformScalar(RangeSlot, s.range), k);
  }

  lemma ReadUniformKinds(t: Log, s: LightState, k: Kind)
    ensures Filter(ShadowReadUniforms(t, s), k)
         == if k == Uniforms then ShadowReadUniforms(Filter(t, k), s) else Filter(t, k)
  {
    var t1 := t.Then(UniformVector(PositionSlot, s.position));
    var t2 := t1.Then(UniformVector(ColorSlot, s.color));
    FilterThen(t, UniformVector(PositionSlot, s.position), k);
    FilterThen(t1, UniformVector(ColorSlot, s.color), k);
    FilterThen(t2, UniformScalar(RangeSlot, s.range), k);
  }

  /**
   * bind_shadow_write sets the viewport to the shadow map size and clears the
   * depth, attaching between the two, and only then uploads.
   */
  lemma ShadowWriteTargetsFirst(s: LightState, framebuffer: Handle, face: nat)
    requires face < |s.views|
    ensures Filter(AfterShadowWrite(Start, s, framebuffer, face), Targets)
         == Start.Then(Viewport(0, 0, s.width, s.height)).Then(Clear(DepthOnly))
    ensures AllBefore(AfterShadowWrite(Start, s, framebuffer, face), Targets, Uniforms)
    ensures AllBefore(AfterShadowWrite(Start, s, framebuffer, face), Attachments, Uniforms)
  {
    var a := AfterShadowTarget(Start, s, framebuffer, face);
    var b := ShadowWriteUniforms(Start, s, face);
    TargetKinds(Start, s, framebuffer, face, Targets);
    TargetKinds(Start, s, framebuffer, face, Uniforms);
    WriteUniformKinds(a, s, face, Targets);
    WriteUniformKinds(Start, s, face, Targets);
    WriteUniformKinds(Start, s, face, Attachments);
    WriteUniformsAppend(a, s, face);
    AllBeforeAppend(a, b, Targets, Uniforms);
    AllBeforeAppend(a, b, Attachments, Uniforms);
  }

  lemma WriteUniformsAppend(a: Log, s: LightState, face: nat)
    requires face < |s.views|
    ensures ShadowWriteUniforms(a, s, face) == Append(a, ShadowWriteUniforms(Start, s, face))
  {
    var v, p := UniformMatrix(ViewSlot, s.views[face]), UniformMatrix(ProjectionSlot, s.projection);
    var o := UniformVector(PositionSlot, s.position);
    assert Append(a, Start.Then(v)) == a.Then(v);
    assert Append(a, Start.Then(v).Then(p)) == a.Then(v).Then(p);
    assert Append(a, Start.Then(v).Then(p).Then(o)) == a.Then(v).Then(p).Then(o);
  }

  /** It uploads that face's view, the projection, the position and the range, in that order. */
  lemma ShadowWriteUploads(t: Log, s: LightState, framebuffer: Handle, face: nat)
    requires face < |s.views|
    ensures Filter(AfterShadowWrite(t, s, framebuffer, face), Uniforms)
         == ShadowWriteUniforms(Filter(t, Uniforms), s, face)
  {
    TargetKinds(t, s, framebuffer, face, Uniforms);
    WriteUniformKinds(AfterShadowTarget(t, s, framebuffer, face), s, face, Uniforms);
  }

  /** It attaches exactly cube layer `face` of the shadow texture. */
  lemma ShadowWriteAttaches(t: Log, s: LightState, framebuffer: Handle, face: nat)
    requires face < |s.views|
    ensures Filter(AfterShadowWrite(t, s, framebuffer, face), Attachments)
         == Filter(t, Attachments).Then(AttachDepthLayer(framebuffer, s.texture, 0, face))
  {
    TargetKinds(t, s, framebuffer, face, Attachments);
    WriteUniformKinds(AfterShadowTarget(t, s, framebuffer, face), s, face, Attachments);
  }

  /**
   * Paired with any kind `k` it does not issue, bind_shadow_write adds just
   * the attachment of layer `face`.
   */
  lemma ShadowWriteLayer(t: Log, s: LightState, framebuffer: Handle, face: nat, k: Kind)
    requires face < |s.views| && k != Uniforms && k != Attachments && k != Targets
    ensures FilterPair(AfterShadowWrite(t, s, framebuffer, face), Attachments, k)
         == FilterPair(t, Attachments, k).Then(AttachDepthLayer(framebuffer, s.texture, 0, face))
  {
    var k1 := Attachments;
    var t1 := t.Then(Viewport(0, 0, s.width, s.height));
    var t2 := t1.Then(AttachDepthLayer(framebuffer, s.texture, 0, face));
    var t3 := AfterShadowTarget(t, s, framebuffer, face);
    var u1 := t3.Then(UniformMatrix(ViewSlot, s.views[face]));
    var u2 := u1.Then(UniformMatrix(ProjectionSlot, s.projection));
    var u3 := u2.Then(UniformVector(PositionSlot, s.position));
    FilterPairOwn(t, Viewport(0, 0, s.width, s.height), Targets, k1, k);
    FilterPairOwn(t1, AttachDepthLayer(framebuffer, s.texture, 0, face), Attachments, k1, k);
    FilterPairOwn(t2, Clear(DepthOnly), Targets, k1, k);
    FilterPairOwn(t3, UniformMatrix(ViewSlot, s.views[face]), Uniforms, k1, k);
    FilterPairOwn(u1, UniformMatrix(ProjectionSlot, s.projection), Uniforms, k1, k);
    FilterPairOwn(u2, UniformVector(PositionSlot, s.position), Uniforms, k1, k);
    FilterPairOwn(u3, UniformScalar(RangeSlot, s.range), Uniforms, k1, k);
  }

  /** Apart from its uploads, attachment and render-target calls, bind_shadow_write issues nothing of any kind. */
  lemma ShadowWriteLeaves(t: Log, s: LightState, framebuffer: Handle, face: nat, k: Kind)
    requires face < |s.views| && k != Uniforms && k != Attachments && k != Targets
    ensures Filter(AfterShadowWrite(t, s, framebuffer, face), k) == Filter(t, k)
  {
    TargetKinds(t, s, framebuffer, face, k);
    WriteUniformKinds(AfterShadowTarget(t, s, framebuffer, face), s, face, k);
  }

  /** bind_shadow_read binds the cube map on unit 1, then uploads position, colour and range. */
  lemma ShadowReadProtocol(t: Log, s: LightState)
    ensures Filter(AfterShadowRead(t, s), TextureBinds) == Filter(t, TextureBinds).Then(BindTextureUnit(ShadowUnit, s.texture))
    ensures Filter(AfterShadowRead(t, s), Uniforms) == ShadowReadUniforms(Filter(t, Uniforms), s)
  {
    FilterThen(t, BindTextureUnit(ShadowUnit, s.texture), TextureBinds);
    FilterThen(t, BindTextureUnit(ShadowUnit, s.texture), Uniforms);
    ReadUniformKinds(t.Then(BindTextureUnit(ShadowUnit, s.texture)), s, TextureBinds);
    ReadUniformKinds(t.Then(BindTextureUnit(ShadowUnit, s.texture)), s, Uniforms);
  }

  /** Taken together, the cube map bind comes first and the three uploads follow it. */
  lemma ShadowReadOrder(t: Log, s: LightState)
    ensures FilterPair(AfterShadowRead(t, s), TextureBinds, Uniforms)
         == ShadowReadUniforms(FilterPair(t, TextureBinds, Uniforms).Then(BindTextureUnit(ShadowUnit, s.texture)), s)
  {
    var k1, k2 := TextureBinds, Uniforms;
    var t1 := t.Then(BindTextureUnit(ShadowUnit, s.texture));
    var t2 := t1.Then(UniformVector(PositionSlot, s.position));
    var t3 := t2.Then(UniformVector(ColorSlot, s.color));
    FilterPairOwn(t, BindTextureUnit(ShadowUnit, s.texture), TextureBinds, k1, k2);
    FilterPairOwn(t1, UniformVector(PositionSlot, s.position), Uniforms, k1, k2);
    FilterPairOwn(t2, UniformVector(ColorSlot, s.color), Uniforms, k1, k2);
    FilterPairOwn(t3, UniformScalar(RangeSlot, s.range), Uniforms, k1, k2);
  }

  /** Apart from its texture bind and uploads, bind_shadow_read issues nothing of any kind. */
  lemma ShadowReadLeaves(t: Log, s: LightState, k: Kind)
    requires k != Uniforms && k != TextureBinds
    ensures Filter(AfterShadowRead(t, s), k) == Filter(t, k)
  {
    FilterThen(t, BindTextureUnit(ShadowUnit, s.texture), k);
    ReadUniformKinds(t.Then(BindTextureUnit(ShadowUnit, s.texture)), s, k);
  }

  /** The colour location is never written by bind_shadow_write, nor the view or projection ones by bind_shadow_read. */
  lemma UploadSlotsApart(s: LightState, face: nat, e: Event)
    requires face < |s.views|
    ensures Occurs(ShadowWriteUniforms(Start, s, face), e) ==> UniformSlot(e) != Some(ColorSlot)
    ensures Occurs(ShadowReadUniforms(Start, s), e) ==> UniformSlot(e) != Some(ViewSlot) && UniformSlot(e) != Some(ProjectionSlot)
  {
    var v, p := UniformMatrix(ViewSlot, s.views[face]), UniformMatrix(ProjectionSlot, s.projection);
    var o, c := UniformVector(PositionSlot, s.position), UniformVector(ColorSlot, s.color);
    OccursThen(Start.Then(v).Then(p).Then(o), UniformScalar(RangeSlot, s.range), e);
    OccursThen(Start.Then(v).Then(p), o, e);
    OccursThen(Start.Then(v), p, e);
    OccursThen(Start.Then(o).Then(c), UniformScalar(RangeSlot, s.range), e);
    OccursThen(Start.Then(o), c, e);
  }

  /**
   * The shadow writer and the shadow reader upload the same light position
   * and range: an upload to either location is made by one exactly when it
   * is made by the other.
   */
  lemma WriteAndReadAgree(s: LightState, face: nat, e: Event)
    requires face < |s.views|
    requires UniformSlot(e) == Some(PositionSlot) || UniformSlot(e) == Some(RangeSlot)
    ensures Occurs(ShadowWriteUniforms(Start, s, face), e) <==> Occurs(ShadowReadUniforms(Start, s), e)
  {
    var v, p := UniformMatrix(ViewSlot, s.views[face]), UniformMatrix(ProjectionSlot, s.projection);
    var o, c := UniformVector(PositionSlot, s.position), UniformVector(ColorSlot, s.color);
    OccursThen(Start.Then(v).Then(p).Then(o), UniformScalar(RangeSlot, s.range), e);
    OccursThen(Start.Then(v).Then(p), o, e);
    OccursThen(Start.Then(v), p, e);
    OccursThen(Start.Then(o).Then(c), UniformScalar(RangeSlot, s.range), e);
    OccursThen(Start.Then(o), c, e);
  }

  /** The bind calls neither create nor delete objects. */
  lemma BindsAreInert(live: set<GlObject>, t: Log, s: LightState, framebuffer: Handle, face: nat)
    requires face < |s.views|
    ensures LiveAfter(live, AfterShadowWrite(t, s, framebuffer, face)) == LiveAfter(live, t)
    ensures LiveAfter(live, AfterShadowRead(t, s)) == LiveAfter(live, t)
  {
    ShadowWriteLeaves(t, s, framebuffer, face, Lifetimes);
    ShadowReadLeaves(t, s, Lifetimes);
    LiveAfterLifetimes(live, t);
    LiveAfterLifetimes(live, AfterShadowWrite(t, s, framebuffer, face));
    LiveAfterLifetimes(live, AfterShadowRead(t, s));
  }

  /**
   * init creates the cube map texture, and destroy issues nothing, so the
   * texture stays alive after destroy.
   */
  lemma DestroyLeaksTexture(live: set<GlObject>, t: Log, texture: Handle, width: nat, height: nat)
    ensures Filter(AfterInit(t, texture, width, height), Lifetimes) == Filter(t, Lifetimes).Then(CreateCubeTexture(texture))
    ensures LiveAfter(live, AfterInit(t, texture, width, height)) == LiveAfter(live, t) + {TextureObject(texture)}
  {
    FilterThen(t, CreateCubeTexture(texture), Lifetimes);
    FilterThen(t.Then(CreateCubeTexture(texture)), TextureStorage(texture, 1, Depth32F, width, height), Lifetimes);
    LiveAfterLifetimes(live, t);
    LiveAfterLifetimes(live, AfterInit(t, texture, width, height));
    LiveThen(live, Filter(t, Lifetimes), CreateCubeTexture(texture));
  }

  // ---- the light object ----

  class Light {
    var position: Vec3
    var color: Vec3
    var range: real
    /** Set when the shadow map is out of date; only the engine clears it. */
    var shadowDirty: bool
    var shadowWidth: nat
    var shadowHeight: nat
    var shadowTexture: Handle
    var shadowProjection: Mat4
    const shadowViews: array<Mat4>

    predicate Valid()
      reads this
    {
      shadowViews.Length == FaceCount
    }

    /** The default settings; texture and matrices are set by init (here 0 and indeterminate). */
    constructor ()
      ensures Valid() && fresh(shadowViews)
      ensures position == DefaultPosition && color == DefaultColor && range == DefaultRange
      ensures shadowDirty
      ensures shadowWidth == ShadowSize && shadowHeight == ShadowSize
      ensures shadowTexture == 0 && shadowProjection == Indeterminate
    {
      position, color, range := DefaultPosition, DefaultColor, DefaultRange;
      shadowDirty := true;
      shadowWidth, shadowHeight := ShadowSize, ShadowSize;
      shadowTexture, shadowProjection := 0, Indeterminate;
      shadowViews := new Mat4[FaceCount](_ => Indeterminate);
    }

    /** What the bind calls read; the dirty flag is not part of it. */
    function State(): LightState
      reads this`position, this`color, this`range, this`shadowWidth, this`shadowHeight
      reads this`shadowTexture, this`shadowProjection, shadowViews
    {
      LightState(position, color, range, shadowWidth, shadowHeight, shadowTexture, shadowProjection, shadowViews[..])
    }

    /** Light::init: the cube map texture, the projection and all six face views. */
    method Init(ctx: Context)
      requires Valid()
      modifies this`shadowTexture, this`shadowProjection, shadowViews, ctx`trace, ctx`nextName
      ensures shadowTexture == old(ctx.nextName) && ctx.nextName == shadowTexture + 1
      ensures ctx.trace == AfterInit(old(ctx.trace), shadowTexture, shadowWidth, shadowHeight)
      ensures shadowProjection == ShadowProjection(shadowWidth, shadowHeight, range)
      ensures forall face | 0 <= face < FaceCount :: shadowViews[face] == FaceView(position, face)
    {
      shadowTexture := ctx.NewName();
      ctx.Emit(CreateCubeTexture(shadowTexture));
      ctx.Emit(TextureStorage(shadowTexture, 1, Depth32F, shadowWidth, shadowHeight));
      shadowProjection := PerspectiveFov(FieldOfView, shadowWidth as real, shadowHeight as real, NearPlane, range);
      shadowViews[0] := LookAt(position, Add(position, Vec3(1.0, 0.0, 0.0)), Vec3(0.0, -1.0, 0.0));
      shadowViews[1] := LookAt(position, Add(position, Vec3(-1.0, 0.0, 0.0)), Vec3(0.0, -1.0, 0.0));
      shadowViews[2] := LookAt(position, Add(position, Vec3(0.0, 1.0, 0.0)), Vec3(0.0, 0.0, 1.0));
      shadowViews[3] := LookAt(position, Add(position, Vec3(0.0, -1.0, 0.0)), Vec3(0.0, 0.0, -1.0));
      shadowViews[4] := LookAt(position, Add(position, Vec3(0.0, 0.0, 1.0)), Vec3(0.0, -1.0, 0.0));
      shadowViews[5] := LookAt(position, Add(position, Vec3(0.0, 0.0, -1.0)), Vec3(0.0, -1.0, 0.0));
    }

    /** Light::destroy releases nothing. */
    method Destroy()
    {
    }

    /** Light::bind_shadow_write for face `face`; changes no field of the light. */
    method BindShadowWrite(ctx: Context, shadowPipeline: Pipeline, face: nat)
      requires Valid() && face < FaceCount
      modifies ctx`trace
      ensures ctx.trace == AfterShadowWrite(old(ctx.trace), State(), shadowPipeline.framebuffer, face)
    {
      ctx.Emit(Viewport(0, 0, shadowWidth, shadowHeight));
      ctx.Emit(AttachDepthLayer(shadowPipeline.framebuffer, shadowTexture, 0, face));
      ctx.Emit(Clear(DepthOnly));
      ctx.Emit(UniformMatrix(ViewSlot, shadowViews[face]));
      ctx.Emit(UniformMatrix(ProjectionSlot, shadowProjection));
      ctx.Emit(UniformVector(PositionSlot, position));
      ctx.Emit(UniformScalar(RangeSlot, range));
    }

    /** Light::bind_shadow_read; changes no field of the light. */
    method BindShadowRead(ctx: Context)
      modifies ctx`trace
      ensures ctx.trace == AfterShadowRead(old(ctx.trace), State())
    {
      ctx.Emit(BindTextureUnit(ShadowUnit, shadowTexture));
      ctx.Emit(UniformVector(PositionSlot, position));
      ctx.Emit(UniformVector(ColorSlot, color));
      ctx.Emit(UniformScalar(RangeSlot, range));
    }
  }
}
