/**
 * The world outside the renderer's core, seen as a log of calls.
 *
 * Every OpenGL call the core issues, every SDL call, and every call into a
 * collaborator whose code is not part of this model (time, window, camera,
 * model, pipeline, input) becomes one `Event` appended to the trace of a
 * `Context`. Matrices and float vectors are kept symbolic.
 */
module Trace {

  /** An OpenGL object name (a GLuint handed out by the driver). */
  type Handle = nat

  datatype Option<T> = None | Some(value: T)

  /** A glm::vec3, with exact reals in place of 32-bit floats. */
  datatype Vec3 = Vec3(x: real, y: real, z: real)

  function Add(a: Vec3, b: Vec3): Vec3 {
    Vec3(a.x + b.x, a.y + b.y, a.z + b.z)
  }

  function Sub(a: Vec3, b: Vec3): Vec3 {
    Vec3(a.x - b.x, a.y - b.y, a.z - b.z)
  }

  function Dot(a: Vec3, b: Vec3): real {
    a.x * b.x + a.y * b.y + a.z * b.z
  }

  /** A glm::mat4 kept as the call that produced it. */
  datatype Mat4 =
    | Indeterminate
    | LookAt(eye: Vec3, center: Vec3, up: Vec3)
    | PerspectiveFov(fovDegrees: real, width: real, height: real, near: real, far: real)

  /**
   * Four integer components of a glm::vec4. Cube positions are counted in
   * half units (so 0.5 is 1 and w = 1.0 is 2); colours in whole units.
   */
  datatype Vec4 = Vec4(x: int, y: int, z: int, w: int)

  /** The interleaved vertex record: position, then colour. */
  datatype Vertex = Vertex(position: Vec4, color: Vec4)

  /** What a buffer upload carries. */
  datatype BufferContents = Vertices(vertices: seq<Vertex>) | Indices(indices: seq<nat>)

  datatype ClearMask = ColorAndDepth | DepthOnly
  datatype RasterMode = Fill | Line
  datatype TextureFormat = Depth32F

  datatype PipelineId = ColorPipeline | ShadowPipeline
  datatype ModelId = Sponza | CubeTextured | CubeVertcols | Sphere
  datatype ModelSource = PrimitiveCube | PrimitiveSphere | AssetFile(path: string)

  datatype Key = KeyW | KeyA | KeyS | KeyD | KeyQ | KeyE | KeyF | KeyEscape | OtherKey(code: nat)
  datatype MouseButton = LeftButton | MiddleButton | RightButton

  datatype SdlEvent = Quit | OtherEvent(code: nat)
  datatype AppResult = AppContinue | AppSuccess | AppFailure

  datatype Event =
    // OpenGL
    | CreateCubeTexture(texture: Handle)
    | TextureStorage(texture: Handle, levels: nat, format: TextureFormat, width: nat, height: nat)
    | Viewport(x: int, y: int, width: nat, height: nat)
    | ClearColor(r: real, g: real, b: real, a: real)
    | Clear(mask: ClearMask)
    | AttachDepthLayer(framebuffer: Handle, texture: Handle, level: nat, layer: nat)
    | UniformMatrix(slot: nat, matrix: Mat4)
    | UniformVector(slot: nat, vector: Vec3)
    | UniformScalar(slot: nat, scalar: real)
    | BindTextureUnit(unit: nat, texture: Handle)
    | CreateBuffer(buffer: Handle)
    | BufferStorage(buffer: Handle, bytes: nat, contents: BufferContents)
    | CreateVertexArray(vao: Handle)
    | VertexArrayVertexBuffer(vao: Handle, binding: nat, buffer: Handle, offset: nat, stride: nat)
    | VertexArrayElementBuffer(vao: Handle, buffer: Handle)
    | AttribFormat(vao: Handle, attrib: nat, components: nat, normalized: bool, offset: nat)
    | AttribBinding(vao: Handle, attrib: nat, binding: nat)
    | EnableAttrib(vao: Handle, attrib: nat)
    | DeleteBuffer(buffer: Handle)
    | DeleteVertexArray(vao: Handle)
    | BindVertexArray(vao: Handle)
    | DrawTriangles(indexCount: nat)
    | PolygonMode(mode: RasterMode)
    // SDL
    | SwapWindow
    | SetRelativeMouseMode(enabled: bool)
    | DestroyAudioStream
    // collaborators
    | TimeInit
    | TimeUpdate
    | WindowInit(width: nat, height: nat, samples: nat)
    | WindowDestroy
    | PipelineInit(pipeline: PipelineId, vertexStage: string, fragmentStage: string)
    | PipelineCreateShadowFramebuffer(pipeline: PipelineId, framebuffer: Handle)
    | PipelineBind(pipeline: PipelineId)
    | PipelineDestroy(pipeline: PipelineId)
    | ModelInit(model: ModelId, source: ModelSource, texturePath: Option<string>)
    | ModelSetPositionX(model: ModelId, positionX: real)
    | ModelSetScale(model: ModelId, scale: Vec3)
    | ModelDraw(model: ModelId, shadowPass: bool)
    | ModelDestroy(model: ModelId)
    | CameraSetPosition(position: Vec3)
    | CameraTranslate(local: Vec3)
    | CameraRotate(pitchBy: real, yawBy: real)
    | CameraBind
    | InputRegisterEvent(event: SdlEvent)
    | InputRegisterCapture(captured: bool)
    | InputFlush

  /** The kinds of call the properties of the model are about. */
  datatype Kind =
    | Uniforms | Attachments | TextureBinds | ShadowDraws | ColorDraws
    | Translations | Rotations | Captures | ModelInits | ModelDestroys
    | Uploads | Layouts | Lifetimes | Targets | PipelineBinds

  /** Whether a call is of kind `k`; every call is of at most one kind. */
  predicate Matches(k: Kind, e: Event) {
    match k
    case Uniforms => e.UniformMatrix? || e.UniformVector? || e.UniformScalar?
    case Attachments => e.AttachDepthLayer?
    case TextureBinds => e.BindTextureUnit?
    case ShadowDraws => e.ModelDraw? && e.shadowPass
    case ColorDraws => e.ModelDraw? && !e.shadowPass
    case Translations => e.CameraTranslate?
    case Rotations => e.CameraRotate?
    case Captures => e.InputRegisterCapture? || e.SetRelativeMouseMode?
    case ModelInits => e.ModelInit?
    case ModelDestroys => e.ModelDestroy?
    case Uploads => e.BufferStorage?
    case Layouts =>
      e.VertexArrayVertexBuffer? || e.VertexArrayElementBuffer? || e.AttribFormat? || e.AttribBinding? || e.EnableAttrib?
    case Targets => e.Viewport? || e.Clear?
    case PipelineBinds => e.PipelineBind?
    case Lifetimes => e.CreateBuffer? || e.CreateVertexArray? || e.CreateCubeTexture? || e.DeleteBuffer? || e.DeleteVertexArray?
  }

  /** A trace of calls, oldest first: `t.Then(e)` is `t` followed by the call `e`. */
  datatype Log = Start | Snoc(init: Log, last: Event) {
    function Then(e: Event): Log {
      Snoc(this, e)
    }
  }

  /** `b` run after `a`. */
  function Append(a: Log, b: Log): Log {
    match b
    case Start => a
    case Snoc(c, e) => Append(a, c).Then(e)
  }

  predicate Occurs(t: Log, e: Event) {
    match t
    case Start => false
    case Snoc(b, x) => x == e || Occurs(b, e)
  }

  function Length(t: Log): nat {
    match t
    case Start => 0
    case Snoc(b, _) => Length(b) + 1
  }

  lemma OccursThen(t: Log, e: Event, x: Event)
    ensures Occurs(t.Then(e), x) <==> x == e || Occurs(t, x)
  {
  }

  /** The calls of kind `k` in `t`, in trace order. */
  function Filter(t: Log, k: Kind): Log {
    match t
    case Start => Start
    case Snoc(b, e) => if Matches(k, e) then Filter(b, k).Then(e) else Filter(b, k)
  }

  /** One more call: the filter grows by it exactly when it is of kind `k`. */
  lemma FilterThen(t: Log, e: Event, k: Kind)
    ensures Filter(t.Then(e), k) == if Matches(k, e) then Filter(t, k).Then(e) else Filter(t, k)
  {
  }

  /** The calls of `t` of kind `k1` or `k2`, in order: how calls of the two kinds interleave. */
  function FilterPair(t: Log, k1: Kind, k2: Kind): Log {
    match t
    case Start => Start
    case Snoc(b, e) => if Matches(k1, e) || Matches(k2, e) then FilterPair(b, k1, k2).Then(e) else FilterPair(b, k1, k2)
  }

  /** Keeping the calls of one of the two kinds afterwards gives that kind's filter. */
  lemma {:induction false} FilterPairProjects(t: Log, k1: Kind, k2: Kind)
    ensures Filter(FilterPair(t, k1, k2), k1) == Filter(t, k1)
    ensures Filter(FilterPair(t, k1, k2), k2) == Filter(t, k2)
    decreases t
  {
    match t
    case Start =>
    case Snoc(b, e) =>
      FilterPairProjects(b, k1, k2);
      if Matches(k1, e) || Matches(k2, e) {
        FilterThen(FilterPair(b, k1, k2), e, k1);
        FilterThen(FilterPair(b, k1, k2), e, k2);
      }
  }

  /** A call of kind `k0` is kept by a pair filter exactly when `k0` is one of the pair. */
  lemma FilterPairOwn(t: Log, e: Event, k0: Kind, k1: Kind, k2: Kind)
    requires Matches(k0, e)
    ensures FilterPair(t.Then(e), k1, k2)
         == if k0 == k1 || k0 == k2 then FilterPair(t, k1, k2).Then(e) else FilterPair(t, k1, k2)
  {
  }

  /** A call of no kind at all. */
  predicate Unkinded(e: Event) {
    !(e.UniformMatrix? || e.UniformVector? || e.UniformScalar? || e.AttachDepthLayer? || e.BindTextureUnit?
      || e.ModelDraw? || e.CameraTranslate? || e.CameraRotate? || e.InputRegisterCapture? || e.SetRelativeMouseMode?
      || e.ModelInit? || e.ModelDestroy? || e.BufferStorage? || e.VertexArrayVertexBuffer? || e.VertexArrayElementBuffer? || e.AttribFormat?
      || e.AttribBinding? || e.EnableAttrib? || e.Viewport? || e.Clear? || e.CreateBuffer? || e.CreateVertexArray? || e.CreateCubeTexture?
      || e.DeleteBuffer? || e.DeleteVertexArray? || e.PipelineBind?)
  }

  lemma FilterPairSkip(t: Log, e: Event, k1: Kind, k2: Kind)
    requires Unkinded(e)
    ensures FilterPair(t.Then(e), k1, k2) == FilterPair(t, k1, k2)
  {
  }

  lemma FilterSkip(t: Log, e: Event, k: Kind)
    requires Unkinded(e)
    ensures Filter(t.Then(e), k) == Filter(t, k)
  {
    FilterThen(t, e, k);
  }

  /** Every call is of at most one kind: a call of kind `k0` is kept by that kind's filter only. */
  lemma FilterOwn(t: Log, e: Event, k0: Kind, k: Kind)
    requires Matches(k0, e)
    ensures Filter(t.Then(e), k) == if k == k0 then Filter(t, k).Then(e) else Filter(t, k)
  {
    FilterThen(t, e, k);
  }

  /** Every call the filter keeps is of its kind and was in the trace. */
  lemma {:induction false} FilterSound(t: Log, k: Kind, x: Event)
    requires Occurs(Filter(t, k), x)
    ensures Occurs(t, x) && Matches(k, x)
    decreases t
  {
    match t
    case Start =>
    case Snoc(b, e) =>
      if !Matches(k, e) || x != e {
        FilterSound(b, k, x);
      }
  }

  /** Every call of kind `k` in the trace is kept by the filter. */
  lemma {:induction false} FilterComplete(t: Log, k: Kind, x: Event)
    requires Occurs(t, x) && Matches(k, x)
    ensures Occurs(Filter(t, k), x)
    decreases t
  {
    match t
    case Start =>
    case Snoc(b, e) =>
      if x != e {
        FilterComplete(b, k, x);
      }
  }

  /**
   * Every call of kind `k1` in `t` comes before every call of kind `k2`: no
   * call of kind `k1` has a call of kind `k2` before it.
   */
  predicate AllBefore(t: Log, k1: Kind, k2: Kind) {
    match t
    case Start => true
    case Snoc(b, e) => AllBefore(b, k1, k2) && (Matches(k1, e) ==> Filter(b, k2) == Start)
  }

  lemma {:induction false} AllBeforeAppend(a: Log, b: Log, k1: Kind, k2: Kind)
    requires Filter(a, k2) == Start && Filter(b, k1) == Start
    ensures AllBefore(Append(a, b), k1, k2)
    decreases b
  {
    match b
    case Start => NoneBefore(a, k1, k2);
    case Snoc(c, e) =>
      FilterThen(c, e, k1);
      AllBeforeAppend(a, c, k1, k2);
  }

  /** A trace with no call of kind `k2` has none before a call of kind `k1`. */
  lemma {:induction false} NoneBefore(t: Log, k1: Kind, k2: Kind)
    requires Filter(t, k2) == Start
    ensures AllBefore(t, k1, k2)
    decreases t
  {
    match t
    case Start =>
    case Snoc(b, e) =>
      FilterThen(b, e, k2);
      NoneBefore(b, k1, k2);
  }

  /** A call that is not of kind `k1` keeps the order, whatever came before it. */
  lemma AllBeforeThen(t: Log, e: Event, k1: Kind, k2: Kind)
    requires AllBefore(t, k1, k2) && !Matches(k1, e)
    ensures AllBefore(t.Then(e), k1, k2)
  {
  }

  /** The OpenGL objects the core creates and deletes itself. */
  datatype GlObject = BufferObject(name: Handle) | VertexArrayObject(name: Handle) | TextureObject(name: Handle)

  function Effect(live: set<GlObject>, e: Event): set<GlObject> {
    if e.CreateBuffer? then live + {BufferObject(e.buffer)}
    else if e.CreateVertexArray? then live + {VertexArrayObject(e.vao)}
    else if e.CreateCubeTexture? then live + {TextureObject(e.texture)}
    else if e.DeleteBuffer? then live - {BufferObject(e.buffer)}
    else if e.DeleteVertexArray? then live - {VertexArrayObject(e.vao)}
    else live
  }

  /** The objects alive after `t` runs from a state where `live` are alive. */
  function LiveAfter(live: set<GlObject>, t: Log): set<GlObject> {
    match t
    case Start => live
    case Snoc(b, e) => Effect(LiveAfter(live, b), e)
  }

  lemma LiveThen(live: set<GlObject>, t: Log, e: Event)
    ensures LiveAfter(live, t.Then(e)) == Effect(LiveAfter(live, t), e)
  {
  }

  /** Only the creating and deleting calls change what is alive. */
  lemma {:induction false} LiveAfterLifetimes(live: set<GlObject>, t: Log)
    ensures LiveAfter(live, t) == LiveAfter(live, Filter(t, Lifetimes))
    decreases t
  {
    match t
    case Start =>
    case Snoc(b, e) =>
      LiveAfterLifetimes(live, b);
      FilterThen(b, e, Lifetimes);
      if Matches(Lifetimes, e) {
        LiveThen(live, Filter(b, Lifetimes), e);
      }
  }

  /**
   * The OpenGL context together with SDL and the collaborators: the trace of
   * calls made so far, the next object name the driver hands out, and the
   * input collaborator's mouse-capture flag.
   */
  class Context {
    var trace: Log
    var nextName: Handle
    var captured: bool

    constructor (captured0: bool)
      ensures trace == Start && nextName == 1 && captured == captured0
    {
      trace := Start;
      nextName := 1;
      captured := captured0;
    }

    method Emit(e: Event)
      modifies this`trace
      ensures trace == old(trace).Then(e)
    {
      trace := trace.Then(e);
    }

    /** A name never handed out before. */
    method NewName() returns (h: Handle)
      modifies this`nextName
      ensures h == old(nextName) && nextName == h + 1
    {
      h := nextName;
      nextName := nextName + 1;
    }

    /** Input::register_capture, assumed to set what Mouse::captured() then reports. */
    method RegisterCapture(on: bool)
      modifies this`trace, this`captured
      ensures trace == old(trace).Then(InputRegisterCapture(on))
      ensures captured == on
    {
      trace := trace.Then(InputRegisterCapture(on));
      captured := on;
    }
  }
}
