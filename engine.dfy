/**
 * The engine: start-up and teardown order, the per-frame schedule (time,
 * input, shadow pass into the six cube faces, colour pass, present) and the
 * SDL event callback.
 *
 * The collaborators (time, window, camera, models, pipelines, input) are seen
 * only through the calls the engine makes on them, recorded in the trace.
 */
module Engine {
  import opened Trace
  import opened Pipelines
  import Light

  const WindowWidth: nat := 1280
  const WindowHeight: nat := 720
  const WindowSamples: nat := 4
  /** Camera speed in units per second. */
  const UnitsPerSecond: real := 2.0
  const MouseSensitivity: real := 0.003

  /** What the input collaborator reports for the current frame. */
  datatype InputState = InputState(
    keysDown: set<Key>,
    keysPressed: set<Key>,
    mousePressed: set<MouseButton>,
    mouseDx: real,
    mouseDy: real)

  // ---- handle_inputs ----

  function Speed(delta: real): real {
    UnitsPerSecond * delta
  }

  predicate IsMoveKey(k: Key) {
    k == KeyW || k == KeyA || k == KeyS || k == KeyD || k == KeyQ || k == KeyE
  }

  /** The camera-local translation a held movement key asks for. */
  function MoveStep(k: Key, s: real): Vec3 {
    match k
    case KeyW => Vec3(0.0, 0.0, -s)
    case KeyA => Vec3(-s, 0.0, 0.0)
    case KeyS => Vec3(0.0, 0.0, s)
    case KeyD => Vec3(s, 0.0, 0.0)
    case KeyQ => Vec3(0.0, -s, 0.0)
    case KeyE => Vec3(0.0, s, 0.0)
    case _ => Vec3(0.0, 0.0, 0.0)
  }

  function AfterMove(t: Log, down: set<Key>, k: Key, s: real): Log {
    if k in down then t.Then(CameraTranslate(MoveStep(k, s))) else t
  }

  /** The movement keys are tested in the order W, A, S, D, Q, E. */
  function AfterMoves(t: Log, down: set<Key>, s: real): Log {
    AfterMove(AfterMove(AfterMove(AfterMove(AfterMove(AfterMove(
      t, down, KeyW, s), down, KeyA, s), down, KeyS, s), down, KeyD, s), down, KeyQ, s), down, KeyE, s)
  }

  predicate ReleasesCapture(captured: bool, input: InputState) {
    captured && KeyEscape in input.keysPressed
  }

  predicate GrabsCapture(captured: bool, input: InputState) {
    !captured && LeftButton in input.mousePressed
  }

  function AfterRelease(t: Log, captured: bool, input: InputState): Log {
    if ReleasesCapture(captured, input)
    then t.Then(InputRegisterCapture(false)).Then(SetRelativeMouseMode(false))
    else t
  }

  function CapturedAfterRelease(captured: bool, input: InputState): bool {
    if ReleasesCapture(captured, input) then false else captured
  }

  function AfterGrab(t: Log, captured: bool, input: InputState): Log {
    if GrabsCapture(captured, input)
    then t.Then(InputRegisterCapture(true)).Then(SetRelativeMouseMode(true))
    else t
  }

  function CapturedAfterGrab(captured: bool, input: InputState): bool {
    if GrabsCapture(captured, input) then true else captured
  }

  /** The capture calls of one handle_inputs: a release, then a grab tested against the new state. */
  function AfterCaptureCalls(t: Log, captured: bool, input: InputState): Log {
    AfterGrab(AfterRelease(t, captured, input), CapturedAfterRelease(captured, input), input)
  }

  /** The capture state handle_inputs leaves behind, from the one it found. */
  function CapturedAfterInputs(captured: bool, input: InputState): bool {
    CapturedAfterGrab(CapturedAfterRelease(captured, input), input)
  }

  function AfterLook(t: Log, captured: bool, input: InputState): Log {
    if captured
    then t.Then(CameraRotate(-(MouseSensitivity * input.mouseDy), -(MouseSensitivity * input.mouseDx)))
    else t
  }

  function PolygonModeFor(input: InputState): RasterMode {
    if KeyF in input.keysDown then Line else Fill
  }

  function AfterInputs(t: Log, captured: bool, delta: real, input: InputState): Log {
    AfterLook(AfterCaptureCalls(AfterMoves(t, input.keysDown, Speed(delta)), captured, input),
              CapturedAfterInputs(captured, input), input)
      .Then(PolygonMode(PolygonModeFor(input)))
  }

  // ---- handle_sdl_frame ----

  /** The four models, drawn in the order sponza, textured cube, coloured cube, sphere. */
  function AfterScene(t: Log, shadowPass: bool): Log {
    t.Then(ModelDraw(Sponza, shadowPass)).Then(ModelDraw(CubeTextured, shadowPass))
      .Then(ModelDraw(CubeVertcols, shadowPass)).Then(ModelDraw(Sphere, shadowPass))
  }

  function AfterShadowFace(t: Log, s: Light.LightState, framebuffer: Handle, face: nat): Log
    requires face < |s.views|
  {
    AfterScene(Light.AfterShadowWrite(t, s, framebuffer, face), true)
  }

  /** Faces 0 .. n-1 of the shadow loop, in that order. */
  function ShadowFaces(t: Log, s: Light.LightState, framebuffer: Handle, n: nat): Log
    requires n <= |s.views|
    decreases n
  {
    if n == 0 then t else AfterShadowFace(ShadowFaces(t, s, framebuffer, n - 1), s, framebuffer, n - 1)
  }

  function AfterShadowPass(t: Log, dirty: bool, s: Light.LightState, framebuffer: Handle): Log
    requires Light.FaceCount <= |s.views|
  {
    if dirty then ShadowFaces(t.Then(PipelineBind(ShadowPipeline)), s, framebuffer, Light.FaceCount) else t
  }

  function AfterColorSetup(t: Log): Log {
    t.Then(PipelineBind(ColorPipeline)).Then(Viewport(0, 0, WindowWidth, WindowHeight))
      .Then(ClearColor(0.01, 0.01, 0.01, 0.0)).Then(Clear(ColorAndDepth))
  }

  function AfterColorPass(t: Log, s: Light.LightState): Log {
    AfterScene(Light.AfterShadowRead(AfterColorSetup(t), s).Then(CameraBind), false)
  }

  function AfterPresent(t: Log): Log {
    t.Then(SwapWindow).Then(InputFlush)
  }

  /** The calls of a frame up to the end of its shadow pass. */
  function ShadowedPrefix(t: Log, captured: bool, delta: real, input: InputState,
                          dirty: bool, s: Light.LightState, framebuffer: Handle): Log
    requires Light.FaceCount <= |s.views|
  {
    AfterShadowPass(AfterInputs(t.Then(TimeUpdate), captured, delta, input), dirty, s, framebuffer)
  }

  /** One call of handle_sdl_frame, from the capture state and dirty flag it found. */
  function AfterFrame(t: Log, captured: bool, delta: real, input: InputState,
                      dirty: bool, s: Light.LightState, framebuffer: Handle): Log
    requires Light.FaceCount <= |s.views|
  {
    AfterPresent(AfterColorPass(ShadowedPrefix(t, captured, delta, input, dirty, s, framebuffer), s))
  }

  /** What one call of handle_sdl_frame finds: capture state, time step, input, dirty flag and light. */
  datatype FrameState = FrameState(captured: bool, delta: real, input: InputState, dirty: bool, light: Light.LightState)

  predicate Renderable(f: FrameState) {
    Light.FaceCount <= |f.light.views|
  }

  /** Consecutive calls of handle_sdl_frame after `t`, one per entry of `frames`. */
  function AfterFrames(t: Log, frames: seq<FrameState>, framebuffer: Handle): Log
    requires forall f | f in frames :: Renderable(f)
    decreases |frames|
  {
    if frames == [] then t
    else
      var f := frames[0];
      assert f in frames && Renderable(f);
      AfterFrames(AfterFrame(t, f.captured, f.delta, f.input, f.dirty, f.light, framebuffer), frames[1..], framebuffer)
  }

  // ---- constructor and destructor ----

  function AfterRenderSetup(t: Log, framebuffer: Handle): Log {
    t.Then(TimeInit).Then(WindowInit(WindowWidth, WindowHeight, WindowSamples))
      .Then(PipelineInit(ColorPipeline, "default.vert", "default.frag"))
      .Then(PipelineInit(ShadowPipeline, "shadow.vert", "shadow.frag"))
      .Then(PipelineCreateShadowFramebuffer(ShadowPipeline, framebuffer))
  }

  function AfterModelSetup(t: Log): Log {
    t.Then(ModelInit(CubeTextured, PrimitiveCube, Some("grass.png"))).Then(ModelSetPositionX(CubeTextured, -2.0))
      .Then(ModelInit(CubeVertcols, PrimitiveCube, None)).Then(ModelSetPositionX(CubeVertcols, 2.0))
      .Then(ModelInit(Sphere, PrimitiveSphere, None))
      .Then(ModelInit(Sponza, AssetFile("sponza/sponza.obj"), None)).Then(ModelSetScale(Sponza, Vec3(0.01, 0.01, 0.01)))
      .Then(CameraSetPosition(Vec3(3.0, 3.0, 0.0)))
  }

  /** Engine::Engine up to the audio set-up. */
  function AfterStartup(t: Log, framebuffer: Handle, texture: Handle): Log {
    Light.AfterInit(AfterModelSetup(AfterRenderSetup(t, framebuffer)), texture, Light.ShadowSize, Light.ShadowSize)
  }

  /** Engine::~Engine. */
  function AfterTeardown(t: Log): Log {
    t.Then(DestroyAudioStream).Then(ModelDestroy(Sphere)).Then(ModelDestroy(CubeTextured))
      .Then(ModelDestroy(CubeVertcols)).Then(PipelineDestroy(ColorPipeline))
      .Then(PipelineDestroy(ShadowPipeline)).Then(WindowDestroy)
  }

  // ---- what one call of handle_inputs does ----

  lemma MoveStepInjective(j: Key, k: Key, s: real)
    requires IsMoveKey(j) && IsMoveKey(k) && s != 0.0
    requires MoveStep(j, s) == MoveStep(k, s)
    ensures j == k
  {
  }

  lemma MoveKinds(t: Log, down: set<Key>, key: Key, s: real, k: Kind)
    ensures Filter(AfterMove(t, down, key, s), k)
         == if k == Translations then AfterMove(Filter(t, k), down, key, s) else Filter(t, k)
  {
    if key in down {
      FilterOwn(t, CameraTranslate(MoveStep(key, s)), Translations, k);
    }
  }

  /** The movement tests issue translations and nothing else, the held keys' in the order W, A, S, D, Q, E. */
  lemma MovesKinds(t: Log, down: set<Key>, s: real, k: Kind)
    ensures Filter(AfterMoves(t, down, s), k)
         == if k == Translations then AfterMoves(Filter(t, k), down, s) else Filter(t, k)
  {
    var t1 := AfterMove(t, down, KeyW, s);
    var t2 := AfterMove(t1, down, KeyA, s);
    var t3 := AfterMove(t2, down, KeyS, s);
    var t4 := AfterMove(t3, down, KeyD, s);
    var t5 := AfterMove(t4, down, KeyQ, s);
    MoveKinds(t, down, KeyW, s, k);
    MoveKinds(t1, down, KeyA, s, k);
    MoveKinds(t2, down, KeyS, s, k);
    MoveKinds(t3, down, KeyD, s, k);
    MoveKinds(t4, down, KeyQ, s, k);
    MoveKinds(t5, down, KeyE, s, k);
  }

  lemma MoveOccurs(t: Log, down: set<Key>, key: Key, s: real, x: Event)
    ensures Occurs(AfterMove(t, down, key, s), x)
        <==> Occurs(t, x) || (key in down && x == CameraTranslate(MoveStep(key, s)))
  {
    if key in down {
      OccursThen(t, CameraTranslate(MoveStep(key, s)), x);
    }
  }

  /** With a non-zero speed, the movement tests issue a key's translation exactly when the key is held. */
  lemma HeldMovesIff(t: Log, down: set<Key>, s: real, k: Key)
    requires s != 0.0 && IsMoveKey(k)
    ensures Occurs(AfterMoves(t, down, s), CameraTranslate(MoveStep(k, s)))
        <==> Occurs(t, CameraTranslate(MoveStep(k, s))) || k in down
  {
    var x := CameraTranslate(MoveStep(k, s));
    var t1 := AfterMove(t, down, KeyW, s);
    var t2 := AfterMove(t1, down, KeyA, s);
    var t3 := AfterMove(t2, down, KeyS, s);
    var t4 := AfterMove(t3, down, KeyD, s);
    var t5 := AfterMove(t4, down, KeyQ, s);
    MoveOccurs(t, down, KeyW, s, x);
    MoveOccurs(t1, down, KeyA, s, x);
    MoveOccurs(t2, down, KeyS, s, x);
    MoveOccurs(t3, down, KeyD, s, x);
    MoveOccurs(t4, down, KeyQ, s, x);
    MoveOccurs(t5, down, KeyE, s, x);
  }

  /** The net camera-local translation of the calls in a trace. */
  function Translation(e: Event): Vec3 {
    if e.CameraTranslate? then e.local else Vec3(0.0, 0.0, 0.0)
  }

  function Net(t: Log): Vec3 {
    match t
    case Start => Vec3(0.0, 0.0, 0.0)
    case Snoc(b, e) => Add(Net(b), Translation(e))
  }

  /** The movement along one axis: +s for the positive key, -s for the negative one. */
  function AxisMove(down: set<Key>, positive: Key, negative: Key, s: real): real {
    (if positive in down then s else 0.0) - (if negative in down then s else 0.0)
  }

  /** D/A move along x, E/Q along y, S/W along z; opposite keys cancel. */
  function Displacement(down: set<Key>, s: real): Vec3 {
    Vec3(AxisMove(down, KeyD, KeyA, s), AxisMove(down, KeyE, KeyQ, s), AxisMove(down, KeyS, KeyW, s))
  }

  function StepIf(down: set<Key>, key: Key, s: real): Vec3 {
    if key in down then MoveStep(key, s) else Vec3(0.0, 0.0, 0.0)
  }

  lemma MoveNetIn(t: Log, down: set<Key>, key: Key, s: real)
    requires key in down
    ensures Net(AfterMove(t, down, key, s)) == Add(Net(t), StepIf(down, key, s))
  {
    var n := Net(t);
    var m := MoveStep(key, s);
    assert Net(t.Then(CameraTranslate(m))) == Add(n, m);
  }

  lemma MoveNetOut(t: Log, down: set<Key>, key: Key, s: real)
    requires key !in down
    ensures Net(AfterMove(t, down, key, s)) == Add(Net(t), StepIf(down, key, s))
  {
    var n := Net(t);
    assert Add(n, Vec3(0.0, 0.0, 0.0)) == n;
  }

  lemma MoveNet(t: Log, down: set<Key>, key: Key, s: real)
    ensures Net(AfterMove(t, down, key, s)) == Add(Net(t), StepIf(down, key, s))
  {
    if key in down { MoveNetIn(t, down, key, s); } else { MoveNetOut(t, down, key, s); }
  }

  lemma StepsSum(n: Vec3, down: set<Key>, s: real)
    ensures Add(Add(Add(Add(Add(Add(n, StepIf(down, KeyW, s)), StepIf(down, KeyA, s)), StepIf(down, KeyS, s)),
                StepIf(down, KeyD, s)), StepIf(down, KeyQ, s)), StepIf(down, KeyE, s))
         == Add(n, Displacement(down, s))
  {
    var w, a, b, d, q, e := StepIf(down, KeyW, s), StepIf(down, KeyA, s), StepIf(down, KeyS, s),
      StepIf(down, KeyD, s), StepIf(down, KeyQ, s), StepIf(down, KeyE, s);
    assert w.x == 0.0 && b.x == 0.0 && q.x == 0.0 && e.x == 0.0;
    assert w.y == 0.0 && a.y == 0.0 && b.y == 0.0 && d.y == 0.0;
    assert a.z == 0.0 && d.z == 0.0 && q.z == 0.0 && e.z == 0.0;
    assert d.x + a.x == AxisMove(down, KeyD, KeyA, s);
    assert e.y + q.y == AxisMove(down, KeyE, KeyQ, s);
    assert b.z + w.z == AxisMove(down, KeyS, KeyW, s);
  }

  lemma MovesNet(t: Log, down: set<Key>, s: real)
    ensures Net(AfterMoves(t, down, s)) == Add(Net(t), Displacement(down, s))
  {
    var t1 := AfterMove(t, down, KeyW, s);
    var t2 := AfterMove(t1, down, KeyA, s);
    var t3 := AfterMove(t2, down, KeyS, s);
    var t4 := AfterMove(t3, down, KeyD, s);
    var t5 := AfterMove(t4, down, KeyQ, s);
    MoveNet(t, down, KeyW, s);
    MoveNet(t1, down, KeyA, s);
    MoveNet(t2, down, KeyS, s);
    MoveNet(t3, down, KeyD, s);
    MoveNet(t4, down, KeyQ, s);
    MoveNet(t5, down, KeyE, s);
    StepsSum(Net(t), down, s);
  }

  /** Calls that are not translations leave the net translation as it was. */
  lemma NetSkips(t: Log, e: Event)
    requires !e.CameraTranslate?
    ensures Net(t.Then(e)) == Net(t)
  {
    var n := Net(t);
    assert Net(t.Then(e)) == Add(n, Vec3(0.0, 0.0, 0.0));
  }

  /** The camera moves by the key-pair displacement; every other call of handle_inputs moves it by nothing. */
  lemma InputsNet(t: Log, captured: bool, delta: real, input: InputState)
    ensures Net(AfterInputs(t, captured, delta, input)) == Add(Net(t), Displacement(input.keysDown, Speed(delta)))
  {
    var c1 := CapturedAfterRelease(captured, input);
    var t1 := AfterMoves(t, input.keysDown, Speed(delta));
    var t2 := AfterRelease(t1, captured, input);
    var t3 := AfterGrab(t2, c1, input);
    var t4 := AfterLook(t3, CapturedAfterInputs(captured, input), input);
    MovesNet(t, input.keysDown, Speed(delta));
    if ReleasesCapture(captured, input) {
      NetSkips(t1, InputRegisterCapture(false));
      NetSkips(t1.Then(InputRegisterCapture(false)), SetRelativeMouseMode(false));
    }
    if GrabsCapture(c1, input) {
      NetSkips(t2, InputRegisterCapture(true));
      NetSkips(t2.Then(InputRegisterCapture(true)), SetRelativeMouseMode(true));
    }
    if CapturedAfterInputs(captured, input) {
      NetSkips(t3, CameraRotate(-(MouseSensitivity * input.mouseDy), -(MouseSensitivity * input.mouseDx)));
    }
    NetSkips(t4, PolygonMode(PolygonModeFor(input)));
  }

  lemma CaptureKinds(t: Log, captured: bool, input: InputState, k: Kind)
    ensures Filter(AfterCaptureCalls(t, captured, input), k)
         == if k == Captures then AfterCaptureCalls(Filter(t, k), captured, input) else Filter(t, k)
  {
    var t2 := AfterRelease(t, captured, input);
    if ReleasesCapture(captured, input) {
      FilterOwn(t, InputRegisterCapture(false), Captures, k);
      FilterOwn(t.Then(InputRegisterCapture(false)), SetRelativeMouseMode(false), Captures, k);
    }
    if GrabsCapture(CapturedAfterRelease(captured, input), input) {
      FilterOwn(t2, InputRegisterCapture(true), Captures, k);
      FilterOwn(t2.Then(InputRegisterCapture(true)), SetRelativeMouseMode(true), Captures, k);
    }
  }

  lemma LookKinds(t: Log, captured: bool, input: InputState, k: Kind)
    ensures Filter(AfterLook(t, captured, input), k)
         == if k == Rotations then AfterLook(Filter(t, k), captured, input) else Filter(t, k)
  {
    if captured {
      FilterOwn(t, CameraRotate(-(MouseSensitivity * input.mouseDy), -(MouseSensitivity * input.mouseDx)), Rotations, k);
    }
  }

  predicate InputKind(k: Kind) {
    k == Translations || k == Rotations || k == Captures
  }

  /**
   * handle_inputs, kind by kind: the held keys' translations, the capture
   * calls, the turn of a captured mouse, and no call of any other kind.
   */
  lemma InputsKinds(t: Log, captured: bool, delta: real, input: InputState, k: Kind)
    ensures Filter(AfterInputs(t, captured, delta, input), k)
         == if k == Translations then AfterMoves(Filter(t, k), input.keysDown, Speed(delta))
            else if k == Captures then AfterCaptureCalls(Filter(t, k), captured, input)
            else if k == Rotations then AfterLook(Filter(t, k), CapturedAfterInputs(captured, input), input)
            else Filter(t, k)
  {
    var t1 := AfterMoves(t, input.keysDown, Speed(delta));
    var t2 := AfterCaptureCalls(t1, captured, input);
    var t3 := AfterLook(t2, CapturedAfterInputs(captured, input), input);
    MovesKinds(t, input.keysDown, Speed(delta), k);
    CaptureKinds(t1, captured, input, k);
    LookKinds(t2, CapturedAfterInputs(captured, input), input, k);
    FilterSkip(t3, PolygonMode(PolygonModeFor(input)), k);
  }

  /** With a non-zero time step, one handle_inputs translates the camera by a key's step exactly when the key is held. */
  lemma InputsTranslate(captured: bool, delta: real, input: InputState, k: Key)
    requires delta != 0.0 && IsMoveKey(k)
    ensures Occurs(Filter(AfterInputs(Start, captured, delta, input), Translations), CameraTranslate(MoveStep(k, Speed(delta))))
        <==> k in input.keysDown
  {
    InputsKinds(Start, captured, delta, input, Translations);
    HeldMovesIff(Start, input.keysDown, Speed(delta), k);
  }

  /** Capture calls in pairs: each capture-flag call is followed at once by the relative-mouse-mode call with its value. */
  predicate Paired(t: Log) {
    match t
    case Start => true
    case Snoc(b, e) => e.SetRelativeMouseMode? && b.Snoc? && b.last == InputRegisterCapture(e.enabled) && Paired(b.init)
  }

  /**
   * SDL's relative mouse mode is always set right after the capture flag, to
   * the same value, and the last such call reports the state handle_inputs
   * leaves behind; a change of state is never silent.
   */
  lemma CaptureCallsFollowState(captured: bool, input: InputState)
    ensures var calls := AfterCaptureCalls(Start, captured, input);
      Paired(calls)
      && (calls.Snoc? ==> calls.last == SetRelativeMouseMode(CapturedAfterInputs(captured, input)))
      && (CapturedAfterInputs(captured, input) != captured ==> calls.Snoc?)
  {
    var r := AfterRelease(Start, captured, input);
    assert Paired(r);
  }

  /**
   * Escape and a left click in the same frame while captured: the capture is
   * released and taken back at once, so it stays captured.
   */
  lemma ReleaseThenRegrab(captured: bool, input: InputState)
    requires captured && KeyEscape in input.keysPressed && LeftButton in input.mousePressed
    ensures AfterCaptureCalls(Start, captured, input)
         == Start.Then(InputRegisterCapture(false)).Then(SetRelativeMouseMode(false))
             .Then(InputRegisterCapture(true)).Then(SetRelativeMouseMode(true))
    ensures CapturedAfterInputs(captured, input)
  {
  }

  // ---- what one call of handle_sdl_frame does ----

  /** The kind of the scene's draws: shadow draws with the shadow flag, colour draws without. */
  function DrawKind(shadowPass: bool): Kind {
    if shadowPass then ShadowDraws else ColorDraws
  }

  lemma SceneKinds(t: Log, shadowPass: bool, k: Kind)
    ensures Filter(AfterScene(t, shadowPass), k)
         == if k == DrawKind(shadowPass) then AfterScene(Filter(t, k), shadowPass) else Filter(t, k)
  {
    var d := DrawKind(shadowPass);
    var t1 := t.Then(ModelDraw(Sponza, shadowPass));
    var t2 := t1.Then(ModelDraw(CubeTextured, shadowPass));
    var t3 := t2.Then(ModelDraw(CubeVertcols, shadowPass));
    FilterOwn(t, ModelDraw(Sponza, shadowPass), d, k);
    FilterOwn(t1, ModelDraw(CubeTextured, shadowPass), d, k);
    FilterOwn(t2, ModelDraw(CubeVertcols, shadowPass), d, k);
    FilterOwn(t3, ModelDraw(Sphere, shadowPass), d, k);
  }

  /** Paired with any other kind, the scene adds its four draws. */
  lemma ScenePair(t: Log, shadowPass: bool, k: Kind)
    ensures FilterPair(AfterScene(t, shadowPass), k, DrawKind(shadowPass))
         == AfterScene(FilterPair(t, k, DrawKind(shadowPass)), shadowPass)
  {
    var d := DrawKind(shadowPass);
    var t1 := t.Then(ModelDraw(Sponza, shadowPass));
    var t2 := t1.Then(ModelDraw(CubeTextured, shadowPass));
    var t3 := t2.Then(ModelDraw(CubeVertcols, shadowPass));
    FilterPairOwn(t, ModelDraw(Sponza, shadowPass), d, k, d);
    FilterPairOwn(t1, ModelDraw(CubeTextured, shadowPass), d, k, d);
    FilterPairOwn(t2, ModelDraw(CubeVertcols, shadowPass), d, k, d);
    FilterPairOwn(t3, ModelDraw(Sphere, shadowPass), d, k, d);
  }

  /** Cube layers 0 .. n-1 of the shadow texture, attached in that order. */
  function AttachedLayers(t: Log, framebuffer: Handle, texture: Handle, n: nat): Log
    decreases n
  {
    if n == 0 then t else AttachedLayers(t, framebuffer, texture, n - 1).Then(AttachDepthLayer(framebuffer, texture, 0, n - 1))
  }

  /** The scene drawn n times over. */
  function RepeatScene(t: Log, shadowPass: bool, n: nat): Log
    decreases n
  {
    if n == 0 then t else AfterScene(RepeatScene(t, shadowPass, n - 1), shadowPass)
  }

  lemma SceneLength(t: Log, shadowPass: bool)
    ensures Length(AfterScene(t, shadowPass)) == Length(t) + 4
  {
    var t1 := t.Then(ModelDraw(Sponza, shadowPass));
    var t2 := t1.Then(ModelDraw(CubeTextured, shadowPass));
    var t3 := t2.Then(ModelDraw(CubeVertcols, shadowPass));
    assert Length(t1) == Length(t) + 1;
    assert Length(t2) == Length(t1) + 1;
    assert Length(t3) == Length(t2) + 1;
    assert Length(t3.Then(ModelDraw(Sphere, shadowPass))) == Length(t3) + 1;
  }

  lemma {:induction false} RepeatSceneLength(t: Log, shadowPass: bool, n: nat)
    ensures Length(RepeatScene(t, shadowPass, n)) == Length(t) + 4 * n
    decreases n
  {
    if n > 0 {
      var r := RepeatScene(t, shadowPass, n - 1);
      RepeatSceneLength(t, shadowPass, n - 1);
      SceneLength(r, shadowPass);
    }
  }

  lemma ShadowFaceKinds(t: Log, s: Light.LightState, framebuffer: Handle, face: nat, k: Kind)
    requires face < |s.views| && k != Uniforms && k != Targets
    ensures Filter(AfterShadowFace(t, s, framebuffer, face), k)
         == if k == Attachments then Filter(t, k).Then(AttachDepthLayer(framebuffer, s.texture, 0, face))
            else if k == ShadowDraws then AfterScene(Filter(t, k), true)
            else Filter(t, k)
  {
    var w := Light.AfterShadowWrite(t, s, framebuffer, face);
    if k == Attachments {
      Light.ShadowWriteAttaches(t, s, framebuffer, face);
    } else {
      Light.ShadowWriteLeaves(t, s, framebuffer, face, k);
    }
    SceneKinds(w, true, k);
  }

  /**
   * n passes of the shadow loop attach cube layers 0 .. n-1 in order, draw
   * the scene n times with the shadow flag, and make no call of the other
   * kinds but uploads and render-target calls.
   */
  lemma {:induction false} ShadowFacesKinds(t: Log, s: Light.LightState, framebuffer: Handle, n: nat, k: Kind)
    requires n <= |s.views| && k != Uniforms && k != Targets
    ensures Filter(ShadowFaces(t, s, framebuffer, n), k)
         == if k == Attachments then AttachedLayers(Filter(t, k), framebuffer, s.texture, n)
            else if k == ShadowDraws then RepeatScene(Filter(t, k), true, n)
            else Filter(t, k)
    decreases n
  {
    if n > 0 {
      ShadowFacesKinds(t, s, framebuffer, n - 1, k);
      ShadowFaceKinds(ShadowFaces(t, s, framebuffer, n - 1), s, framebuffer, n - 1, k);
    }
  }

  /** A dirty shadow map gets the shadow pipeline, all six cube layers and six shadow draws of the scene; a clean one gets nothing. */
  lemma ShadowPassKinds(t: Log, dirty: bool, s: Light.LightState, framebuffer: Handle, k: Kind)
    requires Light.FaceCount <= |s.views| && k != Uniforms && k != Targets
    ensures Filter(AfterShadowPass(t, dirty, s, framebuffer), k)
         == if !dirty then Filter(t, k)
            else if k == Attachments then AttachedLayers(Filter(t, k), framebuffer, s.texture, Light.FaceCount)
            else if k == ShadowDraws then RepeatScene(Filter(t, k), true, Light.FaceCount)
            else if k == PipelineBinds then Filter(t, k).Then(PipelineBind(ShadowPipeline))
            else Filter(t, k)
  {
    if dirty {
      FilterOwn(t, PipelineBind(ShadowPipeline), PipelineBinds, k);
      ShadowFacesKinds(t.Then(PipelineBind(ShadowPipeline)), s, framebuffer, Light.FaceCount, k);
    }
  }

  /**
   * The shadow loop seen through its layer attachments and shadow draws
   * together: layer f is attached, the scene is drawn with the shadow flag,
   * and only then is layer f + 1 attached.
   */
  function Layered(t: Log, framebuffer: Handle, texture: Handle, n: nat): Log
    decreases n
  {
    if n == 0 then t
    else AfterScene(Layered(t, framebuffer, texture, n - 1).Then(AttachDepthLayer(framebuffer, texture, 0, n - 1)), true)
  }

  /** Apart from the interleaving, Layered attaches the layers in order and draws the scene once per layer. */
  lemma {:induction false} LayeredProjects(framebuffer: Handle, texture: Handle, n: nat)
    ensures Filter(Layered(Start, framebuffer, texture, n), Attachments) == AttachedLayers(Start, framebuffer, texture, n)
    ensures Filter(Layered(Start, framebuffer, texture, n), ShadowDraws) == RepeatScene(Start, true, n)
    decreases n
  {
    if n > 0 {
      var l := Layered(Start, framebuffer, texture, n - 1);
      var a := AttachDepthLayer(framebuffer, texture, 0, n - 1);
      LayeredProjects(framebuffer, texture, n - 1);
      FilterOwn(l, a, Attachments, Attachments);
      FilterOwn(l, a, Attachments, ShadowDraws);
      SceneKinds(l.Then(a), true, Attachments);
      SceneKinds(l.Then(a), true, ShadowDraws);
    }
  }

  /** One face of the shadow loop attaches its own layer and then draws the scene into it. */
  lemma ShadowFaceLayered(t: Log, s: Light.LightState, framebuffer: Handle, face: nat)
    requires face < |s.views|
    ensures FilterPair(AfterShadowFace(t, s, framebuffer, face), Attachments, ShadowDraws)
         == AfterScene(FilterPair(t, Attachments, ShadowDraws).Then(AttachDepthLayer(framebuffer, s.texture, 0, face)), true)
  {
    Light.ShadowWriteLayer(t, s, framebuffer, face, ShadowDraws);
    ScenePair(Light.AfterShadowWrite(t, s, framebuffer, face), true, Attachments);
  }

  /** Every face's four shadow draws come after its own layer is attached and before the next layer is. */
  lemma {:induction false} ShadowFacesLayered(t: Log, s: Light.LightState, framebuffer: Handle, n: nat)
    requires n <= |s.views|
    ensures FilterPair(ShadowFaces(t, s, framebuffer, n), Attachments, ShadowDraws)
         == Layered(FilterPair(t, Attachments, ShadowDraws), framebuffer, s.texture, n)
    decreases n
  {
    if n > 0 {
      ShadowFacesLayered(t, s, framebuffer, n - 1);
      ShadowFaceLayered(ShadowFaces(t, s, framebuffer, n - 1), s, framebuffer, n - 1);
    }
  }

  /** A dirty shadow pass interleaves the six layers with the six shadow draws of the scene, face by face. */
  lemma ShadowPassLayered(t: Log, dirty: bool, s: Light.LightState, framebuffer: Handle)
    requires Light.FaceCount <= |s.views|
    ensures FilterPair(AfterShadowPass(t, dirty, s, framebuffer), Attachments, ShadowDraws)
         == if dirty then Layered(FilterPair(t, Attachments, ShadowDraws), framebuffer, s.texture, Light.FaceCount)
            else FilterPair(t, Attachments, ShadowDraws)
  {
    if dirty {
      FilterPairOwn(t, PipelineBind(ShadowPipeline), PipelineBinds, Attachments, ShadowDraws);
      ShadowFacesLayered(t.Then(PipelineBind(ShadowPipeline)), s, framebuffer, Light.FaceCount);
    }
  }

  lemma ColorSetupKinds(t: Log, k: Kind)
    requires k != Targets
    ensures Filter(AfterColorSetup(t), k)
         == if k == PipelineBinds then Filter(t, k).Then(PipelineBind(ColorPipeline)) else Filter(t, k)
  {
    var t1 := t.Then(PipelineBind(ColorPipeline));
    var t2 := t1.Then(Viewport(0, 0, WindowWidth, WindowHeight));
    var t3 := t2.Then(ClearColor(0.01, 0.01, 0.01, 0.0));
    FilterOwn(t, PipelineBind(ColorPipeline), PipelineBinds, k);
    FilterOwn(t1, Viewport(0, 0, WindowWidth, WindowHeight), Targets, k);
    FilterSkip(t2, ClearColor(0.01, 0.01, 0.01, 0.0), k);
    FilterOwn(t3, Clear(ColorAndDepth), Targets, k);
  }

  /** The colour pass binds the colour pipeline and the shadow texture once each, draws the scene once without the shadow flag, and attaches nothing. */
  lemma ColorPassKinds(t: Log, s: Light.LightState, k: Kind)
    requires k != Targets && k != Uniforms
    ensures Filter(AfterColorPass(t, s), k)
         == if k == TextureBinds then Filter(t, k).Then(BindTextureUnit(Light.ShadowUnit, s.texture))
            else if k == ColorDraws then AfterScene(Filter(t, k), false)
            else if k == PipelineBinds then Filter(t, k).Then(PipelineBind(ColorPipeline))
            else Filter(t, k)
  {
    var c := AfterColorSetup(t);
    var r := Light.AfterShadowRead(c, s);
    ColorSetupKinds(t, k);
    if k == TextureBinds {
      Light.ShadowReadProtocol(c, s);
    } else {
      Light.ShadowReadLeaves(c, s, k);
    }
    FilterSkip(r, CameraBind, k);
    SceneKinds(r.Then(CameraBind), false, k);
  }

  lemma PresentKinds(t: Log, k: Kind)
    ensures Filter(AfterPresent(t), k) == Filter(t, k)
  {
    FilterSkip(t, SwapWindow, k);
    FilterSkip(t.Then(SwapWindow), InputFlush, k);
  }

  lemma PrefixKinds(t: Log, captured: bool, delta: real, input: InputState,
                    dirty: bool, s: Light.LightState, framebuffer: Handle, k: Kind)
    requires Light.FaceCount <= |s.views| && k != Uniforms && k != Targets && !InputKind(k)
    ensures Filter(ShadowedPrefix(t, captured, delta, input, dirty, s, framebuffer), k)
         == Filter(AfterShadowPass(t, dirty, s, framebuffer), k)
  {
    var i := AfterInputs(t.Then(TimeUpdate), captured, delta, input);
    FilterSkip(t, TimeUpdate, k);
    InputsKinds(t.Then(TimeUpdate), captured, delta, input, k);
    ShadowPassKinds(i, dirty, s, framebuffer, k);
    ShadowPassKinds(t, dirty, s, framebuffer, k);
  }

  /**
   * One frame attaches the six cube layers in order exactly when the shadow
   * map was dirty, and then binds the shadow texture for reading exactly once.
   */
  lemma FrameAttaches(t: Log, captured: bool, delta: real, input: InputState,
                      dirty: bool, s: Light.LightState, framebuffer: Handle)
    requires Light.FaceCount <= |s.views|
    ensures Filter(AfterFrame(t, captured, delta, input, dirty, s, framebuffer), Attachments)
         == if dirty then AttachedLayers(Filter(t, Attachments), framebuffer, s.texture, Light.FaceCount)
            else Filter(t, Attachments)
    ensures Filter(AfterFrame(t, captured, delta, input, dirty, s, framebuffer), TextureBinds)
         == Filter(t, TextureBinds).Then(BindTextureUnit(Light.ShadowUnit, s.texture))
  {
    var p := ShadowedPrefix(t, captured, delta, input, dirty, s, framebuffer);
    PrefixKinds(t, captured, delta, input, dirty, s, framebuffer, Attachments);
    PrefixKinds(t, captured, delta, input, dirty, s, framebuffer, TextureBinds);
    ShadowPassKinds(t, dirty, s, framebuffer, Attachments);
    ShadowPassKinds(t, dirty, s, framebuffer, TextureBinds);
    ColorPassKinds(p, s, Attachments);
    ColorPassKinds(p, s, TextureBinds);
    PresentKinds(AfterColorPass(p, s), Attachments);
    PresentKinds(AfterColorPass(p, s), TextureBinds);
  }

  /**
   * One frame draws the scene six times into the shadow map (only when
   * dirty) and then once in colour, binding the shadow pipeline (only when
   * dirty) and then the colour pipeline.
   */
  lemma FrameDraws(t: Log, captured: bool, delta: real, input: InputState,
                   dirty: bool, s: Light.LightState, framebuffer: Handle)
    requires Light.FaceCount <= |s.views|
    ensures Filter(AfterFrame(t, captured, delta, input, dirty, s, framebuffer), ShadowDraws)
         == if dirty then RepeatScene(Filter(t, ShadowDraws), true, Light.FaceCount) else Filter(t, ShadowDraws)
    ensures Filter(AfterFrame(t, captured, delta, input, dirty, s, framebuffer), ColorDraws)
         == AfterScene(Filter(t, ColorDraws), false)
    ensures Filter(AfterFrame(t, captured, delta, input, dirty, s, framebuffer), PipelineBinds)
         == (if dirty then Filter(t, PipelineBinds).Then(PipelineBind(ShadowPipeline)) else Filter(t, PipelineBinds))
              .Then(PipelineBind(ColorPipeline))
  {
    var p := ShadowedPrefix(t, captured, delta, input, dirty, s, framebuffer);
    PrefixKinds(t, captured, delta, input, dirty, s, framebuffer, ShadowDraws);
    PrefixKinds(t, captured, delta, input, dirty, s, framebuffer, ColorDraws);
    PrefixKinds(t, captured, delta, input, dirty, s, framebuffer, PipelineBinds);
    ShadowPassKinds(t, dirty, s, framebuffer, ShadowDraws);
    ShadowPassKinds(t, dirty, s, framebuffer, ColorDraws);
    ShadowPassKinds(t, dirty, s, framebuffer, PipelineBinds);
    ColorPassKinds(p, s, ShadowDraws);
    ColorPassKinds(p, s, ColorDraws);
    ColorPassKinds(p, s, PipelineBinds);
    PresentKinds(AfterColorPass(p, s), ShadowDraws);
    PresentKinds(AfterColorPass(p, s), ColorDraws);
    PresentKinds(AfterColorPass(p, s), PipelineBinds);
  }

  /** A first frame with a dirty shadow map draws 28 models: 24 into the shadow map, 4 in colour. */
  lemma DirtyFrameDrawCount(captured: bool, delta: real, input: InputState, s: Light.LightState, framebuffer: Handle)
    requires Light.FaceCount <= |s.views|
    ensures Length(Filter(AfterFrame(Start, captured, delta, input, true, s, framebuffer), ShadowDraws)) == 24
    ensures Length(Filter(AfterFrame(Start, captured, delta, input, true, s, framebuffer), ColorDraws)) == 4
  {
    FrameDraws(Start, captured, delta, input, true, s, framebuffer);
    RepeatSceneLength(Start, true, Light.FaceCount);
    SceneLength(Start, false);
  }

  /** The render passes issue no camera or capture call: those of a frame are those of its handle_inputs. */
  lemma FrameInputKinds(t: Log, captured: bool, delta: real, input: InputState,
                        dirty: bool, s: Light.LightState, framebuffer: Handle, k: Kind)
    requires Light.FaceCount <= |s.views| && InputKind(k)
    ensures Filter(AfterFrame(t, captured, delta, input, dirty, s, framebuffer), k)
         == Filter(AfterInputs(t.Then(TimeUpdate), captured, delta, input), k)
  {
    var i := AfterInputs(t.Then(TimeUpdate), captured, delta, input);
    var p := AfterShadowPass(i, dirty, s, framebuffer);
    ShadowPassKinds(i, dirty, s, framebuffer, k);
    ColorPassKinds(p, s, k);
    PresentKinds(AfterColorPass(p, s), k);
  }

  /** A frame initialises, destroys, creates and deletes nothing. */
  lemma FrameKeeps(t: Log, captured: bool, delta: real, input: InputState,
                   dirty: bool, s: Light.LightState, framebuffer: Handle, k: Kind)
    requires Light.FaceCount <= |s.views| && (k == ModelInits || k == ModelDestroys || k == Lifetimes)
    ensures Filter(AfterFrame(t, captured, delta, input, dirty, s, framebuffer), k) == Filter(t, k)
  {
    var p := ShadowedPrefix(t, captured, delta, input, dirty, s, framebuffer);
    PrefixKinds(t, captured, delta, input, dirty, s, framebuffer, k);
    ShadowPassKinds(t, dirty, s, framebuffer, k);
    ColorPassKinds(p, s, k);
    PresentKinds(AfterColorPass(p, s), k);
  }

  /** Nor does any number of frames. */
  lemma {:induction false} FramesKeep(t: Log, frames: seq<FrameState>, framebuffer: Handle, k: Kind)
    requires forall f | f in frames :: Renderable(f)
    requires k == ModelInits || k == ModelDestroys || k == Lifetimes
    ensures Filter(AfterFrames(t, frames, framebuffer), k) == Filter(t, k)
    decreases |frames|
  {
    if frames != [] {
      var f := frames[0];
      assert f in frames;
      FrameKeeps(t, f.captured, f.delta, f.input, f.dirty, f.light, framebuffer, k);
      FramesKeep(AfterFrame(t, f.captured, f.delta, f.input, f.dirty, f.light, framebuffer), frames[1..], framebuffer, k);
    }
  }

  /** The colour setup, the read bind, the camera bind, the scene and the present attach nothing, so they keep the order. */
  lemma ColorPassOrder(t: Log, s: Light.LightState, k1: Kind)
    requires k1 == Attachments || k1 == ShadowDraws
    requires AllBefore(t, k1, TextureBinds)
    ensures AllBefore(AfterPresent(AfterColorPass(t, s)), k1, TextureBinds)
  {
    var k2 := TextureBinds;
    var c1 := t.Then(PipelineBind(ColorPipeline));
    var c2 := c1.Then(Viewport(0, 0, WindowWidth, WindowHeight));
    var c3 := c2.Then(ClearColor(0.01, 0.01, 0.01, 0.0));
    var c4 := c3.Then(Clear(ColorAndDepth));
    var r1 := c4.Then(BindTextureUnit(Light.ShadowUnit, s.texture));
    var r2 := r1.Then(UniformVector(Light.PositionSlot, s.position));
    var r3 := r2.Then(UniformVector(Light.ColorSlot, s.color));
    var r4 := r3.Then(UniformScalar(Light.RangeSlot, s.range));
    var b := r4.Then(CameraBind);
    var d1 := b.Then(ModelDraw(Sponza, false));
    var d2 := d1.Then(ModelDraw(CubeTextured, false));
    var d3 := d2.Then(ModelDraw(CubeVertcols, false));
    var d4 := d3.Then(ModelDraw(Sphere, false));
    var p1 := d4.Then(SwapWindow);
    AllBeforeThen(t, PipelineBind(ColorPipeline), k1, k2);
    AllBeforeThen(c1, Viewport(0, 0, WindowWidth, WindowHeight), k1, k2);
    AllBeforeThen(c2, ClearColor(0.01, 0.01, 0.01, 0.0), k1, k2);
    AllBeforeThen(c3, Clear(ColorAndDepth), k1, k2);
    AllBeforeThen(c4, BindTextureUnit(Light.ShadowUnit, s.texture), k1, k2);
    AllBeforeThen(r1, UniformVector(Light.PositionSlot, s.position), k1, k2);
    AllBeforeThen(r2, UniformVector(Light.ColorSlot, s.color), k1, k2);
    AllBeforeThen(r3, UniformScalar(Light.RangeSlot, s.range), k1, k2);
    AllBeforeThen(r4, CameraBind, k1, k2);
    AllBeforeThen(b, ModelDraw(Sponza, false), k1, k2);
    AllBeforeThen(d1, ModelDraw(CubeTextured, false), k1, k2);
    AllBeforeThen(d2, ModelDraw(CubeVertcols, false), k1, k2);
    AllBeforeThen(d3, ModelDraw(Sphere, false), k1, k2);
    AllBeforeThen(d4, SwapWindow, k1, k2);
    AllBeforeThen(p1, InputFlush, k1, k2);
  }

  /** Within a frame, every shadow-map layer is attached before the shadow texture is bound for reading. */
  lemma ShadowWrittenBeforeRead(captured: bool, delta: real, input: InputState,
                                dirty: bool, s: Light.LightState, framebuffer: Handle)
    requires Light.FaceCount <= |s.views|
    ensures AllBefore(AfterFrame(Start, captured, delta, input, dirty, s, framebuffer), Attachments, TextureBinds)
  {
    var p := ShadowedPrefix(Start, captured, delta, input, dirty, s, framebuffer);
    PrefixKinds(Start, captured, delta, input, dirty, s, framebuffer, TextureBinds);
    ShadowPassKinds(Start, dirty, s, framebuffer, TextureBinds);
    NoneBefore(p, Attachments, TextureBinds);
    ColorPassOrder(p, s, Attachments);
  }

  /** Within a frame, every shadow draw of the scene comes before the shadow texture is bound for reading. */
  lemma ShadowDrawnBeforeRead(captured: bool, delta: real, input: InputState,
                              dirty: bool, s: Light.LightState, framebuffer: Handle)
    requires Light.FaceCount <= |s.views|
    ensures AllBefore(AfterFrame(Start, captured, delta, input, dirty, s, framebuffer), ShadowDraws, TextureBinds)
  {
    var p := ShadowedPrefix(Start, captured, delta, input, dirty, s, framebuffer);
    PrefixKinds(Start, captured, delta, input, dirty, s, framebuffer, TextureBinds);
    ShadowPassKinds(Start, dirty, s, framebuffer, TextureBinds);
    NoneBefore(p, ShadowDraws, TextureBinds);
    ColorPassOrder(p, s, ShadowDraws);
  }

  /**
   * handle_sdl_frame clears the dirty flag, so a second frame renders no
   * shadow map: over two frames the layers are attached once, or never.
   */
  lemma ShadowMapRenderedOnce(t: Log, c1: bool, d1: real, in1: InputState, c2: bool, d2: real, in2: InputState,
                              dirty: bool, s: Light.LightState, framebuffer: Handle)
    requires Light.FaceCount <= |s.views|
    ensures Filter(AfterFrame(AfterFrame(t, c1, d1, in1, dirty, s, framebuffer), c2, d2, in2, false, s, framebuffer), Attachments)
         == Filter(AfterFrame(t, c1, d1, in1, dirty, s, framebuffer), Attachments)
    ensures Filter(AfterFrame(AfterFrame(t, c1, d1, in1, dirty, s, framebuffer), c2, d2, in2, false, s, framebuffer), ShadowDraws)
         == Filter(AfterFrame(t, c1, d1, in1, dirty, s, framebuffer), ShadowDraws)
    ensures Filter(AfterFrame(AfterFrame(t, c1, d1, in1, dirty, s, framebuffer), c2, d2, in2, false, s, framebuffer), ColorDraws)
         == AfterScene(Filter(AfterFrame(t, c1, d1, in1, dirty, s, framebuffer), ColorDraws), false)
  {
    var first := AfterFrame(t, c1, d1, in1, dirty, s, framebuffer);
    FrameAttaches(first, c2, d2, in2, false, s, framebuffer);
    FrameDraws(first, c2, d2, in2, false, s, framebuffer);
  }

  // ---- start-up and teardown ----

  lemma RenderSetupKinds(t: Log, framebuffer: Handle, k: Kind)
    ensures Filter(AfterRenderSetup(t, framebuffer), k) == Filter(t, k)
  {
    var t1 := t.Then(TimeInit);
    var t2 := t1.Then(WindowInit(WindowWidth, WindowHeight, WindowSamples));
    var t3 := t2.Then(PipelineInit(ColorPipeline, "default.vert", "default.frag"));
    var t4 := t3.Then(PipelineInit(ShadowPipeline, "shadow.vert", "shadow.frag"));
    FilterSkip(t, TimeInit, k);
    FilterSkip(t1, WindowInit(WindowWidth, WindowHeight, WindowSamples), k);
    FilterSkip(t2, PipelineInit(ColorPipeline, "default.vert", "default.frag"), k);
    FilterSkip(t3, PipelineInit(ShadowPipeline, "shadow.vert", "shadow.frag"), k);
    FilterSkip(t4, PipelineCreateShadowFramebuffer(ShadowPipeline, framebuffer), k);
  }

  /** The models the constructor initialises, in its order: textured cube, coloured cube, sphere, sponza. */
  function AfterInits(t: Log): Log {
    t.Then(ModelInit(CubeTextured, PrimitiveCube, Some("grass.png"))).Then(ModelInit(CubeVertcols, PrimitiveCube, None))
      .Then(ModelInit(Sphere, PrimitiveSphere, None)).Then(ModelInit(Sponza, AssetFile("sponza/sponza.obj"), None))
  }

  lemma ModelSetupKinds(t: Log, k: Kind)
    ensures Filter(AfterModelSetup(t), k) == if k == ModelInits then AfterInits(Filter(t, k)) else Filter(t, k)
  {
    var i1, i2 := ModelInit(CubeTextured, PrimitiveCube, Some("grass.png")), ModelInit(CubeVertcols, PrimitiveCube, None);
    var i3, i4 := ModelInit(Sphere, PrimitiveSphere, None), ModelInit(Sponza, AssetFile("sponza/sponza.obj"), None);
    var t1 := t.Then(i1);
    var t2 := t1.Then(ModelSetPositionX(CubeTextured, -2.0));
    var t3 := t2.Then(i2);
    var t4 := t3.Then(ModelSetPositionX(CubeVertcols, 2.0));
    var t5 := t4.Then(i3);
    var t6 := t5.Then(i4);
    var t7 := t6.Then(ModelSetScale(Sponza, Vec3(0.01, 0.01, 0.01)));
    FilterOwn(t, i1, ModelInits, k);
    FilterSkip(t1, ModelSetPositionX(CubeTextured, -2.0), k);
    FilterOwn(t2, i2, ModelInits, k);
    FilterSkip(t3, ModelSetPositionX(CubeVertcols, 2.0), k);
    FilterOwn(t4, i3, ModelInits, k);
    FilterOwn(t5, i4, ModelInits, k);
    FilterSkip(t6, ModelSetScale(Sponza, Vec3(0.01, 0.01, 0.01)), k);
    FilterSkip(t7, CameraSetPosition(Vec3(3.0, 3.0, 0.0)), k);
  }

  /**
   * The constructor initialises the textured cube, the coloured cube, the
   * sphere and sponza, in that order, and of the objects the mesh and light
   * code create with their own GL calls creates only the light's cube map
   * texture.
   */
  lemma StartupKinds(t: Log, framebuffer: Handle, texture: Handle, k: Kind)
    ensures Filter(AfterStartup(t, framebuffer, texture), k)
         == if k == ModelInits then AfterInits(Filter(t, k))
            else if k == Lifetimes then Filter(t, k).Then(CreateCubeTexture(texture))
            else Filter(t, k)
  {
    var r := AfterRenderSetup(t, framebuffer);
    var m := AfterModelSetup(r);
    RenderSetupKinds(t, framebuffer, k);
    ModelSetupKinds(r, k);
    FilterOwn(m, CreateCubeTexture(texture), Lifetimes, k);
    FilterSkip(m.Then(CreateCubeTexture(texture)), TextureStorage(texture, 1, Depth32F, Light.ShadowSize, Light.ShadowSize), k);
  }

  /** The models the destructor releases, in its order: sphere, textured cube, coloured cube. */
  function AfterDestroys(t: Log): Log {
    t.Then(ModelDestroy(Sphere)).Then(ModelDestroy(CubeTextured)).Then(ModelDestroy(CubeVertcols))
  }

  /** The destructor releases the sphere, the textured cube and the coloured cube, in that order, and makes no other call of a tracked kind. */
  lemma TeardownKinds(t: Log, k: Kind)
    ensures Filter(AfterTeardown(t), k) == if k == ModelDestroys then AfterDestroys(Filter(t, k)) else Filter(t, k)
  {
    var t1 := t.Then(DestroyAudioStream);
    var t2 := t1.Then(ModelDestroy(Sphere));
    var t3 := t2.Then(ModelDestroy(CubeTextured));
    var t4 := t3.Then(ModelDestroy(CubeVertcols));
    var t5 := t4.Then(PipelineDestroy(ColorPipeline));
    var t6 := t5.Then(PipelineDestroy(ShadowPipeline));
    FilterSkip(t, DestroyAudioStream, k);
    FilterOwn(t1, ModelDestroy(Sphere), ModelDestroys, k);
    FilterOwn(t2, ModelDestroy(CubeTextured), ModelDestroys, k);
    FilterOwn(t3, ModelDestroy(CubeVertcols), ModelDestroys, k);
    FilterSkip(t4, PipelineDestroy(ColorPipeline), k);
    FilterSkip(t5, PipelineDestroy(ShadowPipeline), k);
    FilterSkip(t6, WindowDestroy, k);
  }

  /** Construction followed directly by destruction, kind by kind. */
  lemma ConstructDestroyKinds(framebuffer: Handle, texture: Handle, k: Kind)
    ensures Filter(AfterTeardown(AfterStartup(Start, framebuffer, texture)), k)
         == if k == ModelInits then AfterInits(Start)
            else if k == ModelDestroys then AfterDestroys(Start)
            else if k == Lifetimes then Start.Then(CreateCubeTexture(texture))
            else Start
  {
    StartupKinds(Start, framebuffer, texture, k);
    TeardownKinds(AfterStartup(Start, framebuffer, texture), k);
  }

  /** A whole run: construction, the frames, destruction. */
  function Run(framebuffer: Handle, texture: Handle, frames: seq<FrameState>): Log
    requires forall f | f in frames :: Renderable(f)
  {
    AfterTeardown(AfterFrames(AfterStartup(Start, framebuffer, texture), frames, framebuffer))
  }

  /** The model inits, model destroys and object lifetimes of a run with any number of frames. */
  lemma RunKinds(framebuffer: Handle, texture: Handle, frames: seq<FrameState>, k: Kind)
    requires forall f | f in frames :: Renderable(f)
    requires k == ModelInits || k == ModelDestroys || k == Lifetimes
    ensures Filter(Run(framebuffer, texture, frames), k)
         == if k == ModelInits then AfterInits(Start)
            else if k == ModelDestroys then AfterDestroys(Start)
            else Start.Then(CreateCubeTexture(texture))
  {
    var started := AfterStartup(Start, framebuffer, texture);
    StartupKinds(Start, framebuffer, texture, k);
    FramesKeep(started, frames, framebuffer, k);
    TeardownKinds(AfterFrames(started, frames, framebuffer), k);
  }

  /** Sponza is among the models initialised over a run. */
  lemma SponzaInitialised(framebuffer: Handle, texture: Handle, frames: seq<FrameState>)
    requires forall f | f in frames :: Renderable(f)
    ensures Occurs(Run(framebuffer, texture, frames), ModelInit(Sponza, AssetFile("sponza/sponza.obj"), None))
  {
    var run := Run(framebuffer, texture, frames);
    RunKinds(framebuffer, texture, frames, ModelInits);
    var sponza := ModelInit(Sponza, AssetFile("sponza/sponza.obj"), None);
    assert Occurs(AfterInits(Start), sponza);
    FilterSound(run, ModelInits, sponza);
  }

  /** Engine::~Engine never destroys sponza, and no frame does either. */
  lemma SponzaNeverDestroyed(framebuffer: Handle, texture: Handle, frames: seq<FrameState>)
    requires forall f | f in frames :: Renderable(f)
    ensures !Occurs(Run(framebuffer, texture, frames), ModelDestroy(Sponza))
  {
    var run := Run(framebuffer, texture, frames);
    RunKinds(framebuffer, texture, frames, ModelDestroys);
    if Occurs(run, ModelDestroy(Sponza)) {
      FilterComplete(run, ModelDestroys, ModelDestroy(Sponza));
      assert false;
    }
  }

  /**
   * Of the GL objects the mesh and light code create with their own calls,
   * the light's cube map texture is the one still alive after a run.
   */
  lemma CubeMapOutlivesRun(framebuffer: Handle, texture: Handle, frames: seq<FrameState>)
    requires forall f | f in frames :: Renderable(f)
    ensures LiveAfter({}, Run(framebuffer, texture, frames)) == {TextureObject(texture)}
  {
    var run := Run(framebuffer, texture, frames);
    RunKinds(framebuffer, texture, frames, Lifetimes);
    LiveAfterLifetimes({}, run);
    LiveThen({}, Start, CreateCubeTexture(texture));
  }

  /**
   * Over a run with any number of frames, the models are initialised in the
   * order textured cube, coloured cube, sphere, sponza and destroyed in the
   * order sphere, textured cube, coloured cube: the two cubes are released
   * in the order they were initialised (not the reverse) and sponza never.
   * The light's cube map texture is the one object made by the mesh and
   * light code's own GL calls still alive at the end.
   */
  lemma LifecycleLeaks(framebuffer: Handle, texture: Handle, frames: seq<FrameState>)
    requires forall f | f in frames :: Renderable(f)
    ensures var run := Run(framebuffer, texture, frames);
      Filter(run, ModelInits) == AfterInits(Start) && Filter(run, ModelDestroys) == AfterDestroys(Start)
      && Occurs(run, ModelInit(Sponza, AssetFile("sponza/sponza.obj"), None))
      && !Occurs(run, ModelDestroy(Sponza))
      && LiveAfter({}, run) == {TextureObject(texture)}
  {
    RunKinds(framebuffer, texture, frames, ModelInits);
    RunKinds(framebuffer, texture, frames, ModelDestroys);
    SponzaInitialised(framebuffer, texture, frames);
    SponzaNeverDestroyed(framebuffer, texture, frames);
    CubeMapOutlivesRun(framebuffer, texture, frames);
  }

  class Engine {
    const ctx: Context
    const light: Light.Light
    const pipeline: Pipeline
    const shadowPipeline: Pipeline

    predicate Valid()
      reads this, light
    {
      light.Valid() && pipeline.id == ColorPipeline && shadowPipeline.id == ShadowPipeline
    }

    /** Engine::Engine without the audio stream. */
    constructor (context: Context)
      modifies context
      ensures Valid() && ctx == context
      ensures fresh(light) && fresh(light.shadowViews) && fresh(pipeline) && fresh(shadowPipeline)
      ensures shadowPipeline.framebuffer == old(context.nextName)
      ensures light.shadowTexture == shadowPipeline.framebuffer + 1 && ctx.nextName == light.shadowTexture + 1
      ensures ctx.trace == AfterStartup(old(context.trace), shadowPipeline.framebuffer, light.shadowTexture)
      ensures ctx.captured == old(context.captured) && light.shadowDirty
      ensures light.position == Light.DefaultPosition && light.color == Light.DefaultColor && light.range == Light.DefaultRange
      ensures light.shadowWidth == Light.ShadowSize && light.shadowHeight == Light.ShadowSize
      ensures light.shadowProjection == Light.ShadowProjection(Light.ShadowSize, Light.ShadowSize, Light.DefaultRange)
      ensures forall face | 0 <= face < Light.FaceCount :: light.shadowViews[face] == Light.FaceView(Light.DefaultPosition, face)
    {
      ctx := context;
      light := new Light.Light();
      pipeline := new Pipeline(ColorPipeline);
      shadowPipeline := new Pipeline(ShadowPipeline);
      new;
      ctx.Emit(TimeInit);
      ctx.Emit(WindowInit(WindowWidth, WindowHeight, WindowSamples));
      pipeline.Init(ctx, "default.vert", "default.frag");
      shadowPipeline.Init(ctx, "shadow.vert", "shadow.frag");
      shadowPipeline.CreateShadowFramebuffer(ctx);
      SetUpModels();
      light.Init(ctx);
    }

    /** The model and camera part of the constructor. */
    method SetUpModels()
      modifies ctx`trace
      ensures ctx.trace == AfterModelSetup(old(ctx.trace))
    {
      ctx.Emit(ModelInit(CubeTextured, PrimitiveCube, Some("grass.png")));
      ctx.Emit(ModelSetPositionX(CubeTextured, -2.0));
      ctx.Emit(ModelInit(CubeVertcols, PrimitiveCube, None));
      ctx.Emit(ModelSetPositionX(CubeVertcols, 2.0));
      ctx.Emit(ModelInit(Sphere, PrimitiveSphere, None));
      ctx.Emit(ModelInit(Sponza, AssetFile("sponza/sponza.obj"), None));
      ctx.Emit(ModelSetScale(Sponza, Vec3(0.01, 0.01, 0.01)));
      ctx.Emit(CameraSetPosition(Vec3(3.0, 3.0, 0.0)));
    }

    /** Engine::~Engine without the audio stream's own release. */
    method Teardown()
      requires Valid()
      modifies ctx`trace
      ensures ctx.trace == AfterTeardown(old(ctx.trace))
    {
      ctx.Emit(DestroyAudioStream);
      ctx.Emit(ModelDestroy(Sphere));
      ctx.Emit(ModelDestroy(CubeTextured));
      ctx.Emit(ModelDestroy(CubeVertcols));
      pipeline.Destroy(ctx);
      shadowPipeline.Destroy(ctx);
      ctx.Emit(WindowDestroy);
    }

    /** Engine::handle_sdl_event: quit ends the app, anything else goes to the input state. */
    method HandleEvent(event: SdlEvent) returns (r: AppResult)
      modifies ctx`trace
      ensures r == (if event == Quit then AppSuccess else AppContinue)
      ensures ctx.trace == (if event == Quit then old(ctx.trace) else old(ctx.trace).Then(InputRegisterEvent(event)))
    {
      match event {
        case Quit =>
          return AppSuccess;
        case _ =>
      }
      ctx.Emit(InputRegisterEvent(event));
      return AppContinue;
    }

    /** The movement part of handle_inputs. */
    method Move(speed: real, input: InputState)
      modifies ctx`trace
      ensures ctx.trace == AfterMoves(old(ctx.trace), input.keysDown, speed)
    {
      if KeyW in input.keysDown { ctx.Emit(CameraTranslate(Vec3(0.0, 0.0, -speed))); }
      if KeyA in input.keysDown { ctx.Emit(CameraTranslate(Vec3(-speed, 0.0, 0.0))); }
      if KeyS in input.keysDown { ctx.Emit(CameraTranslate(Vec3(0.0, 0.0, speed))); }
      if KeyD in input.keysDown { ctx.Emit(CameraTranslate(Vec3(speed, 0.0, 0.0))); }
      if KeyQ in input.keysDown { ctx.Emit(CameraTranslate(Vec3(0.0, -speed, 0.0))); }
      if KeyE in input.keysDown { ctx.Emit(CameraTranslate(Vec3(0.0, speed, 0.0))); }
    }

    /** Engine::handle_inputs. */
    method HandleInputs(delta: real, input: InputState)
      modifies ctx`trace, ctx`captured
      ensures ctx.captured == CapturedAfterInputs(old(ctx.captured), input)
      ensures ctx.trace == AfterInputs(old(ctx.trace), old(ctx.captured), delta, input)
    {
      var speed := UnitsPerSecond * delta;
      Move(speed, input);
      ghost var c0, t1 := ctx.captured, ctx.trace;
      if ctx.captured && KeyEscape in input.keysPressed {
        ctx.RegisterCapture(false);
        ctx.Emit(SetRelativeMouseMode(ctx.captured));
      }
      assert ctx.trace == AfterRelease(t1, c0, input) && ctx.captured == CapturedAfterRelease(c0, input);
      ghost var c1, t2 := ctx.captured, ctx.trace;
      if !ctx.captured && LeftButton in input.mousePressed {
        ctx.RegisterCapture(true);
        ctx.Emit(SetRelativeMouseMode(ctx.captured));
      }
      assert ctx.trace == AfterGrab(t2, c1, input) && ctx.captured == CapturedAfterGrab(c1, input);
      if ctx.captured {
        var sensitivity := MouseSensitivity;
        ctx.Emit(CameraRotate(-(sensitivity * input.mouseDy), -(sensitivity * input.mouseDx)));
      }
      if KeyF in input.keysDown {
        ctx.Emit(PolygonMode(Line));
      } else {
        ctx.Emit(PolygonMode(Fill));
      }
    }

    /** The four scene draws, with or without the shadow flag. */
    method DrawScene(shadowPass: bool)
      modifies ctx`trace
      ensures ctx.trace == AfterScene(old(ctx.trace), shadowPass)
    {
      ctx.Emit(ModelDraw(Sponza, shadowPass));
      ctx.Emit(ModelDraw(CubeTextured, shadowPass));
      ctx.Emit(ModelDraw(CubeVertcols, shadowPass));
      ctx.Emit(ModelDraw(Sphere, shadowPass));
    }

    /** One pass of the shadow loop: bind the face, then draw the scene into it. */
    method ShadowFace(face: nat)
      requires Valid() && face < Light.FaceCount
      modifies ctx`trace
      ensures ctx.trace == AfterShadowFace(old(ctx.trace), light.State(), shadowPipeline.framebuffer, face)
    {
      light.BindShadowWrite(ctx, shadowPipeline, face);
      DrawScene(true);
    }

    /** The loop over the six cube faces. */
    method ShadowFaceLoop()
      requires Valid()
      modifies ctx`trace
      ensures ctx.trace == ShadowFaces(old(ctx.trace), light.State(), shadowPipeline.framebuffer, Light.FaceCount)
    {
      ghost var t0, s := ctx.trace, light.State();
      for face := 0 to Light.FaceCount
        invariant ctx.trace == ShadowFaces(t0, s, shadowPipeline.framebuffer, face)
      {
        ShadowFace(face);
      }
    }

    /** The shadow block of handle_sdl_frame: all six faces, only while the map is dirty. */
    method ShadowPass()
      requires Valid()
      modifies ctx`trace, light`shadowDirty
      ensures !light.shadowDirty
      ensures ctx.trace == AfterShadowPass(old(ctx.trace), old(light.shadowDirty), light.State(), shadowPipeline.framebuffer)
    {
      if light.shadowDirty {
        shadowPipeline.Bind(ctx);
        ShadowFaceLoop();
        ghost var s := light.State();
        light.shadowDirty := false;
        assert light.State() == s;
      }
    }

    /** The colour block of handle_sdl_frame. */
    method ColorPass()
      requires Valid()
      modifies ctx`trace
      ensures ctx.trace == AfterColorPass(old(ctx.trace), light.State())
    {
      pipeline.Bind(ctx);
      ctx.Emit(Viewport(0, 0, WindowWidth, WindowHeight));
      ctx.Emit(ClearColor(0.01, 0.01, 0.01, 0.0));
      ctx.Emit(Clear(ColorAndDepth));
      light.BindShadowRead(ctx);
      ctx.Emit(CameraBind);
      DrawScene(false);
    }

    /** Engine::handle_sdl_frame. */
    method HandleFrame(delta: real, input: InputState) returns (r: AppResult)
      requires Valid()
      modifies ctx`trace, ctx`captured, light`shadowDirty
      ensures r == AppContinue && !light.shadowDirty
      ensures ctx.captured == CapturedAfterInputs(old(ctx.captured), input)
      ensures ctx.trace == AfterFrame(old(ctx.trace), old(ctx.captured), delta, input,
                                      old(light.shadowDirty), light.State(), shadowPipeline.framebuffer)
    {
      ctx.Emit(TimeUpdate);
      HandleInputs(delta, input);
      ShadowPass();
      ColorPass();
      ctx.Emit(SwapWindow);
      ctx.Emit(InputFlush);
      return AppContinue;
    }
  }
}
