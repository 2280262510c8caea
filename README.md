# A verified model of the cg25-26 renderer core

The core of the cg25-26 OpenGL/SDL engine has three parts:

- **`Engine`** (include/engine.hpp) builds the window, two pipelines, four models and a point light. Its destructor destroys the audio stream, the sphere, the two cubes, the two pipelines and the window. It never destroys Sponza or the light.
  - Each frame it reads the input.
  - When the light's cube shadow map is dirty, it renders the scene into all six cube faces.
  - It then renders the scene in colour with the shadow map bound, and presents.
- **`Mesh`** (include/mesh.hpp) owns a constant cube, given as a vertex table and an index table. It uploads them into two GPU buffers and describes the interleaved vertex layout in a vertex array.
- **`Light`** (include/light.hpp) owns the shadow cube map and its six face cameras. It binds itself for writing one face, or for reading in the colour pass.

## How the model works

The model treats the outside world as a log.

- **The log.** Every OpenGL or SDL call, and every call into a collaborator that acts (time, window, camera, model, pipeline, input), becomes an `Event`. Each event is appended to the `trace` of a `Trace.Context`.
- **Queries are not events.** The input queries `Keys::down`, `Keys::pressed`, `Mouse::pressed` and `Mouse::delta` are fields of an `InputState` value. `Mouse::captured` is the `captured` field of the `Context`. The time step `_time._delta` is the `delta` parameter of a frame.
- **The trace type.** A trace is a `Log`: `Start`, or `t.Then(e)`, meaning `t` followed by the call `e`, oldest call first.
- **The context.** `Context` also holds the next object name the driver hands out, and the input collaborator's mouse-capture flag.
- **Classes.** `Engine`, `Mesh` and `Light` are classes with the source's fields. Their methods append to the trace.
- **What the methods are proved against.** Each method is proved against a function of the old trace, for example:
  - `Engine.AfterFrame` for `handle_sdl_frame`;
  - `Light.AfterShadowWrite` for `bind_shadow_write`;
  - `Mesh.AfterInit` for `Mesh::init`.
- **Where the properties live.** They are lemmas about those functions. Most use `Filter(t, k)`: the calls of one `Kind` in trace `t`, in order. Examples of kinds are uniform uploads, depth-layer attachments, shadow draws, colour draws and camera translations. A lemma typically states that a filtered run equals the filtered old trace followed by exactly these calls.
- **Ordering.** `AllBefore` states that every call of one kind precedes every call of another. `FilterPair(t, k1, k2)` keeps the calls of two kinds together, so it shows how they interleave.
- **Object lifetimes.** `LiveAfter` follows the buffers, vertex arrays and textures the core creates and deletes.
- **The pipeline collaborator.** `Pipelines.Pipeline` is a stand-in for it: it records its calls and hands out the shadow framebuffer name.

## Model

| member | source | states |
|---|---|---|
| Mesh.CubeVertex | include/mesh.hpp:15-39 | Vertex i lies on the plane of face i/4, has w = 1 (2 in half units) and carries that face's colour. |
| Mesh.CubeVertices | include/mesh.hpp:15-40 | The vertex table has four entries per face, 24 in all. Entry i lies on the plane of face i/4, has w = 1 (2 in half units) and carries that face's colour. Mesh.FaceCornersDistinct adds that a face's four entries are four distinct corners. |
| Mesh.FaceIndices | include/mesh.hpp:41-48 | Each face's row of the index table has six indices. |
| Mesh.CubeTableSizes | include/mesh.hpp:15-48 | The vertex table has 24 entries and the index table 36: four vertices and six indices per face, for six faces. |
| Mesh.FaceRowsInPlace | include/mesh.hpp:41-48 | Row k of the index table (entries 6k to 6k+5) is exactly face k's six indices. |
| Mesh.IndicesInRange | include/mesh.hpp:41-48 | Every index names a vertex of the table. |
| Mesh.FaceUsesOwnVertices | include/mesh.hpp:15-48 | Face k's indices name only the face's own vertices 4k..4k+3, and both of its triangles have three distinct corners. |
| Mesh.FaceDiagonalNamedTwice | include/mesh.hpp:41-48 | In each face, the two diagonal vertices (4k and 4k+3) occur twice and the other two corners once. |
| Mesh.DiagonalShared | include/mesh.hpp:41-48 | A face vertex is used by both of the face's triangles exactly when it is on the shared diagonal, and every face vertex is used by at least one. |
| Mesh.FaceVertexShape | include/mesh.hpp:15-40 | Each vertex of face k lies on that face's plane. Its coordinates are all ±0.5 with w = 1, and it carries the face's colour with alpha 1. |
| Mesh.FaceCornersDistinct | include/mesh.hpp:15-40 | The four vertices of a face sit at four different corners. |
| Mesh.LayoutIsDense | include/mesh.hpp:70-81 | A vertex is 32 bytes. The position attribute fills bytes 0-15 and the colour attribute bytes 16-31: one stride, no gap, no overlap. |
| Mesh.VertexUploadBytes | include/mesh.hpp:54-57 | The vertex upload is 768 bytes (24 vertices of 32 bytes). |
| Mesh.IndexUploadBytes | include/mesh.hpp:62-65 | The index upload is 144 bytes (36 indices of 4 bytes). |
| Mesh.UploadKinds | include/mesh.hpp:51-65 | The two buffer blocks create the vertex buffer and the index buffer, in that order, and upload the vertex table and the index table, in that order. They describe no layout. Mesh.InitCreatesBeforeUploads states how creates and uploads interleave. |
| Mesh.InitCreatesBeforeUploads | include/mesh.hpp:51-68 | Taking creates and uploads together, init creates the vertex buffer, uploads into it, creates the index buffer, uploads into it, then creates the vertex array. So each buffer is created before its upload. |
| Mesh.LayoutKinds | include/mesh.hpp:67-81 | The vertex-array block creates only the vertex array and uploads nothing. |
| Mesh.LayoutDescribesVertex | include/mesh.hpp:70-81 | The eight layout calls are, in order: binding 0 of the vertex array to the vertex buffer with offset 0 and a one-vertex stride, the index buffer as element buffer, then for the position attribute and then the colour attribute its format, its binding to binding 0 and its enable. |
| Mesh.InitUploads | include/mesh.hpp:51-65 | init uploads exactly two buffers: the whole vertex table into the vertex buffer, then the whole index table into the index buffer, each with its byte count. |
| Mesh.InitLayout | include/mesh.hpp:67-81 | init makes the eight layout calls of LayoutDescribesVertex and no other vertex-array binding, element-buffer, attribute format, attribute binding or enable call. |
| Mesh.InitAttributesFitStride | include/mesh.hpp:70-81 | Every layout call of init targets the mesh's vertex array. Each attribute format ends within one vertex. The vertex binding uses the vertex buffer with the vertex size as its stride. The element buffer is the index buffer. Every attribute binding reads binding 0, and only the position and colour attributes are enabled. |
| Mesh.InitDestroyLifetimes | include/mesh.hpp:51-87 | init creates the vertex buffer, the index buffer and the vertex array, in that order. destroy deletes the index buffer, the vertex buffer and the vertex array, in that order. |
| Mesh.InitDestroyReleasesAll | include/mesh.hpp:51-87 | init makes three new objects live, and destroy after init leaves exactly the objects that were live before. |
| Mesh.CubeDrawIsTwelveTriangles | include/mesh.hpp:41-49 | The index count is a whole number of triangles: 12, two per face. |
| Mesh.Mesh.constructor | include/mesh.hpp:96-99 | The four fields start at 0. |
| Mesh.Mesh.Init | include/mesh.hpp:12-82 | init stores three fresh consecutive names and an index count of 36. Its calls are those of Mesh.AfterInit. |
| Mesh.Mesh.UploadVertices | include/mesh.hpp:51-57 | This block takes a fresh buffer name, creates the buffer and uploads the vertex table. |
| Mesh.Mesh.UploadIndices | include/mesh.hpp:59-65 | This block takes a fresh buffer name, creates the buffer and uploads the index table. |
| Mesh.Mesh.DescribeLayout | include/mesh.hpp:67-81 | This block takes a fresh vertex-array name, creates the vertex array and makes the eight layout calls of Mesh.AfterLayout. |
| Mesh.Mesh.Destroy | include/mesh.hpp:83-87 | destroy makes the three delete calls on the stored names and nothing else. |
| Mesh.Mesh.Bind | include/mesh.hpp:89-91 | bind binds the stored vertex array. |
| Mesh.Mesh.Draw | include/mesh.hpp:92-94 | draw issues one indexed draw of the stored index count. |
| Light.LookAxis | include/light.hpp:11-16 | Each face looks along a signed unit axis. |
| Light.UpAxis | include/light.hpp:11-16 | Each face's up vector is a signed unit axis. |
| Light.FaceView | include/light.hpp:11-16 | A face view is a look-at from the eye, toward a centre one axis step away, with the face's up vector. |
| Light.ShadowProjection | include/light.hpp:10 | The shadow projection is a 90 degree perspective over the whole map, with the near plane at 1 and the far plane at the light's range. |
| Light.AxesAreUnit | include/light.hpp:11-16 | Every face camera looks along a unit axis, and its up vector is a unit axis. |
| Light.UpOrthogonalToLook | include/light.hpp:11-16 | Every face's up vector is orthogonal to its look direction. |
| Light.FacesLookApart | include/light.hpp:11-16 | The six faces look in six different directions, in opposite pairs (right/left, top/bottom, back/front). |
| Light.FaceViewLooksOutward | include/light.hpp:11-16 | Each face view sits at the light's position and looks one unit along its face axis, with an up vector orthogonal to that direction. |
| Light.ShadowWriteTargetsFirst | include/light.hpp:22-36 | bind_shadow_write sets the viewport and then clears depth. Both calls, and the layer attachment, come before every uniform upload. |
| Light.ShadowWriteUploads | include/light.hpp:30-35 | bind_shadow_write uploads, in order, the face's view, the projection, the position and the range. |
| Light.ShadowWriteAttaches | include/light.hpp:26-27 | bind_shadow_write attaches exactly cube layer `face` of the shadow texture to the given framebuffer. |
| Light.ShadowWriteLeaves | include/light.hpp:22-36 | bind_shadow_write makes no call of any other kind (no texture bind, no draw, no object creation). |
| Light.ShadowReadProtocol | include/light.hpp:38-45 | bind_shadow_read binds the cube map on texture unit 1 once, and uploads position, colour and range, in that order. Light.ShadowReadOrder states that the bind comes first. |
| Light.ShadowReadOrder | include/light.hpp:38-45 | Taking texture binds and uniform uploads together, bind_shadow_read binds the cube map and only then uploads position, colour and range. |
| Light.ShadowWriteLayer | include/light.hpp:22-36 | Paired with any kind that bind_shadow_write does not issue, such as shadow draws, it adds only the attachment of layer `face`. |
| Light.ShadowReadLeaves | include/light.hpp:38-45 | bind_shadow_read makes no call of any other kind. |
| Light.UploadSlotsApart | include/light.hpp:31-44 | The write bind never writes the colour location, and the read bind never writes the view or projection locations. |
| Light.WriteAndReadAgree | include/light.hpp:34-44 | On the position and range locations, the write bind and the read bind upload exactly the same values. |
| Light.BindsAreInert | include/light.hpp:22-45 | Neither bind creates or deletes an object. |
| Light.DestroyLeaksTexture | include/light.hpp:5-20 | init creates exactly one object, the cube map texture, which adds it to the live set. |
| Light.Light.constructor | include/light.hpp:47-57 | The defaults are: position (3,3,0), colour (0.992,0.984,0.827), range 100, a dirty shadow map, and a 4096×4096 shadow size. |
| Light.Light.Init | include/light.hpp:5-17 | init takes a fresh texture name and issues the texture calls of Light.AfterInit. It sets the projection and the six face views. |
| Light.Light.BindShadowWrite | include/light.hpp:22-36 | Its calls are those of Light.AfterShadowWrite for the light's current state. |
| Light.Light.BindShadowRead | include/light.hpp:38-45 | Its calls are those of Light.AfterShadowRead for the light's current state. |
| Engine.MoveStepInjective | include/engine.hpp:70-75 | With a non-zero speed, two movement keys that translate the camera the same way are the same key. |
| Engine.MovesKinds | include/engine.hpp:68-75 | The movement tests issue translations only: one per held key, in the order W, A, S, D, Q, E. |
| Engine.HeldMovesIff | include/engine.hpp:70-75 | With a non-zero speed, a movement key's translation is issued if and only if the key is held. |
| Engine.MovesNet | include/engine.hpp:69-75 | The movement tests move the camera by the key-pair displacement. Opposite keys held together cancel. |
| Engine.InputsNet | include/engine.hpp:67-97 | handle_inputs as a whole moves the camera by exactly that displacement. |
| Engine.CaptureKinds | include/engine.hpp:77-86 | The capture block issues its capture calls and no call of any other kind. |
| Engine.InputsKinds | include/engine.hpp:67-97 | Per kind, handle_inputs issues the held keys' translations, the capture calls, and one rotation only when the mouse ends up captured; no call of any other kind. |
| Engine.InputsTranslate | include/engine.hpp:67-75 | With a non-zero time step, one handle_inputs translates the camera by a key's step if and only if the key is held. |
| Engine.CaptureCallsFollowState | include/engine.hpp:77-86 | Each capture-flag call is followed at once by the relative-mouse-mode call with the same value. The last call reports the new state, and a change of state is never silent. |
| Engine.ReleaseThenRegrab | include/engine.hpp:77-86 | Escape and a left click while captured release and then re-take the capture in the same frame, so the mouse stays captured. |
| Engine.SceneKinds | include/engine.hpp:117-120 | A scene draw draws Sponza, the textured cube, the coloured cube and the sphere, in that order. With the shadow flag these are shadow draws, without it colour draws. It issues nothing else. |
| Engine.ScenePair | include/engine.hpp:117-120 | Paired with any other kind, a scene draw adds just its four draws. |
| Engine.ShadowFaceKinds | include/engine.hpp:115-120 | One loop pass attaches its face's layer, then draws the scene with the shadow flag. |
| Engine.ShadowFacesKinds | include/engine.hpp:114-121 | The first n loop passes attach layers 0..n-1 in order and draw the scene n times with the shadow flag. Apart from uploads and render targets, they make no other call. |
| Engine.ShadowPassKinds | include/engine.hpp:110-123 | A dirty shadow map gets the shadow pipeline bound once, all six layers and six scene draws. A clean one gets nothing. |
| Engine.LayeredProjects | include/engine.hpp:114-121 | Apart from the interleaving, Engine.Layered attaches layers 0..n-1 in order and draws the scene n times with the shadow flag. |
| Engine.ShadowFaceLayered | include/engine.hpp:115-120 | Taking attachments and shadow draws together, one loop pass attaches its own layer and then makes its four shadow draws. |
| Engine.ShadowFacesLayered | include/engine.hpp:114-121 | Taking attachments and shadow draws together, the first n loop passes give Engine.Layered: each face's four draws come after its own layer is attached and before the next layer is. |
| Engine.ShadowPassLayered | include/engine.hpp:110-123 | A dirty shadow pass interleaves its six layers and six shadow scenes face by face, as Engine.Layered. A clean one adds neither. |
| Engine.ColorSetupKinds | include/engine.hpp:126-133 | The colour setup binds the colour pipeline and otherwise makes only render-target calls. |
| Engine.ColorPassKinds | include/engine.hpp:125-145 | The colour pass binds the colour pipeline and the shadow texture once each and draws the scene once without the shadow flag. It attaches no layer. |
| Engine.PresentKinds | include/engine.hpp:147-150 | Presenting makes no call of any kind. |
| Engine.PrefixKinds | include/engine.hpp:106-123 | Up to the end of the shadow pass, every kind other than the input kinds, uniforms and render targets is exactly as the shadow pass leaves it. |
| Engine.FrameAttaches | include/engine.hpp:106-152 | A frame attaches the six cube layers in order exactly when the map was dirty. It binds the shadow texture for reading exactly once. |
| Engine.FrameDraws | include/engine.hpp:106-152 | A frame makes six shadow scene draws when dirty and none when clean, and always one colour scene draw. It binds the shadow pipeline (when dirty), then the colour pipeline. |
| Engine.DirtyFrameDrawCount | include/engine.hpp:110-145 | A dirty first frame makes 24 shadow draws and 4 colour draws. |
| Engine.FrameInputKinds | include/engine.hpp:106-152 | The render passes make no camera or capture call, so a frame's input calls are those of its handle_inputs. |
| Engine.ColorPassOrder | include/engine.hpp:125-150 | The colour pass and the present attach nothing and make no shadow draw. So they keep the order "every layer attached before the texture is read", and the order "every shadow draw before the texture is read". |
| Engine.ShadowWrittenBeforeRead | include/engine.hpp:106-152 | Within a frame, every shadow-map layer is attached before the shadow texture is bound for reading. |
| Engine.ShadowDrawnBeforeRead | include/engine.hpp:114-135 | Within a frame, all shadow draws come before the shadow texture is bound for reading. |
| Engine.ShadowMapRenderedOnce | include/engine.hpp:111-123 | After the dirty flag is cleared, a second frame attaches no layer and makes no shadow draw. It adds one colour scene draw. |
| Engine.RenderSetupKinds | include/engine.hpp:13-19 | The time, window and pipeline set-up makes no call of any kind the model tracks. The shadow framebuffer it creates belongs to the pipeline collaborator and is not among the tracked objects. |
| Engine.ModelSetupKinds | include/engine.hpp:21-35 | The model set-up initialises the textured cube, the coloured cube, the sphere and Sponza, in that order, and makes no other call of a tracked kind. The position writes, Sponza's scale and the camera position are calls of no tracked kind. |
| Engine.StartupKinds | include/engine.hpp:12-38 | The constructor initialises the four models in that order. Of the objects that the mesh and light code create with their own GL calls, it creates only the light's cube map texture. |
| Engine.TeardownKinds | include/engine.hpp:56-65 | The destructor destroys the sphere, the textured cube and the coloured cube, in that order, and makes no other call of a tracked kind. The audio-stream, pipeline and window destroys are of no tracked kind. |
| Engine.FrameKeeps | include/engine.hpp:106-152 | A frame initialises no model, destroys no model, and creates or deletes no tracked object. |
| Engine.FramesKeep | include/engine.hpp:106-152 | The same holds for any number of consecutive frames. |
| Engine.ConstructDestroyKinds | include/engine.hpp:12-65 | Construction followed directly by destruction makes, in order, the four model inits, the three model destroys and the one texture creation, and no other call of a tracked kind. |
| Engine.RunKinds | include/engine.hpp:12-65 | A run with any number of frames between construction and destruction makes, in order, the four model inits, the three model destroys and the one texture creation, and no other model init, model destroy, create or delete. |
| Engine.LifecycleLeaks | include/engine.hpp:12-65 | Over a run with any number of frames, the models are initialised as textured cube, coloured cube, sphere, Sponza, and destroyed as sphere, textured cube, coloured cube. So the cubes are released in their init order and Sponza never. Of the objects that the mesh and light code create with their own GL calls, the light's cube map texture is the one still live at the end. |
| Engine.Engine.constructor | include/engine.hpp:12-38 | The constructor makes the calls of Engine.AfterStartup. It sets the framebuffer and texture to consecutive fresh names, a dirty shadow map, the light defaults and the six face views. |
| Engine.Engine.SetUpModels | include/engine.hpp:21-35 | The model part of the constructor makes the calls of Engine.AfterModelSetup. |
| Engine.Engine.Teardown | include/engine.hpp:56-65 | The destructor makes the calls of Engine.AfterTeardown. |
| Engine.Engine.HandleEvent | include/engine.hpp:98-105 | Quit yields success and registers nothing. Any other event is registered with the input collaborator and yields continue. |
| Engine.Engine.Move | include/engine.hpp:68-75 | The movement block makes the calls of Engine.AfterMoves. |
| Engine.Engine.HandleInputs | include/engine.hpp:67-97 | handle_inputs makes the calls of Engine.AfterInputs and leaves the capture state that Engine.CapturedAfterInputs gives. |
| Engine.Engine.DrawScene | include/engine.hpp:117-120 | The four draws, with or without the shadow flag. |
| Engine.Engine.ShadowFace | include/engine.hpp:115-120 | One loop pass makes the calls of Engine.AfterShadowFace. |
| Engine.Engine.ShadowFaceLoop | include/engine.hpp:114-121 | The loop makes the calls of faces 0..5, in order. Its loop invariant is Engine.ShadowFaces. |
| Engine.Engine.ShadowPass | include/engine.hpp:110-123 | The shadow block runs only when the map is dirty, and always leaves it clean. |
| Engine.Engine.ColorPass | include/engine.hpp:125-145 | The colour block makes the calls of Engine.AfterColorPass. |
| Engine.Engine.HandleFrame | include/engine.hpp:106-152 | handle_sdl_frame returns continue and clears the dirty flag. Its calls are those of Engine.AfterFrame. |

## Left out

- **Audio.** The audio set-up (include/engine.hpp:41-54) is left out: SDL audio, the wav loader and the error printing are I/O. The teardown keeps its `SDL_DestroyAudioStream` call as an event.
- **Collaborators.** Time, window, camera, model, pipeline and input are seen only as the calls the core makes on them. pipeline.hpp, model.hpp, camera.hpp, time.hpp, window.hpp and input.hpp are not part of this model.
- **Time and mouse input.** The frame's time step and the mouse motion are parameters of the frame.
- **Floating point.** Float arithmetic becomes `real`, and GLM matrices are symbolic `Mat4` values (`LookAt`, `PerspectiveFov`). So the model does not capture the rounding of `2.0 * _time._delta`, of the sensitivity product, or of the face view matrices.
- **GLuint widths.** Handles and sizes are unbounded naturals. This matters nowhere in the core: its largest constant is 4096.
- **Object names.** One name counter stands for the driver. It hands out buffer, vertex array, framebuffer and texture names from one sequence. The driver's per-type name spaces are not modelled.
- **Mouse capture.** `Input::register_capture` is assumed to set the capture flag to its argument. This is how the engine reads it back through `Mouse::captured()`.
- **Tracked objects.** The live-object properties cover only the buffers, vertex arrays and cube map texture that the mesh and light code create and delete with their own GL calls. The shadow framebuffer made by the pipeline collaborator and the GPU objects inside the models are not tracked. So Engine.LifecycleLeaks does not show that Sponza's objects also outlive the run.
- **Frame sequences.** SDL's callback loop, which calls handle_sdl_frame, is not part of this model. A run (Engine.Run) is construction, any sequence of frames, then destruction. Each frame takes its capture state, dirty flag and light from its own `FrameState` entry instead of from the previous frame. The run properties hold for every such sequence, so they also hold for the one the engine's fields produce.
- **Model default arguments.** model.hpp is not part of this model, so two of its default arguments are assumed. A `draw()` with no argument (include/engine.hpp:141-144) is a `ModelDraw` without the shadow flag, so a colour draw. An `init` given no texture (include/engine.hpp:25, 28, 31) is a `ModelInit` whose texture is `None`.
- **Polygon mode.** `glPolygonMode` is recorded only as `Fill` or `Line`. The rasteriser is not modelled.
- Light.Light.Destroy: `Light::destroy` has an empty body, so the method has no postcondition. Light.DestroyLeaksTexture and Engine.LifecycleLeaks state what this leaves alive.
- **Cube coordinates.** Cube positions are integers in half units, so ±0.5 is ±1 and w = 1.0 is 2. Colours are integers in whole units. This is exact for every constant in the tables.
- **Fields before init.** The source leaves `Mesh`'s handle fields and the light's texture uninitialised until init. The model starts them at 0.
- **Vertex size comment.** The header comment in include/mesh.hpp says a vertex is 16 bytes. The code makes it two `vec4`s, which is 32 bytes. The model follows the code, and Mesh.LayoutIsDense proves the 32.
- **Teardown order comment.** The destructor's comment says "reversed init() order", but the code destroys the cubes in the order they were initialised and never destroys Sponza. The model follows the code, and Engine.TeardownKinds and Engine.LifecycleLeaks state the actual order.
