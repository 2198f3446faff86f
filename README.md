# GL_Template core, modelled in Dafny

GL_Template is an OpenGL demo engine. Most of its code is GL, GLFW and ImGui calls. The
pieces with their own sequencing and bookkeeping logic are modelled here:

- **The deferred renderer** (`src/Renderer.cpp`, module `DeferredRenderer`).
  - Its targets are sized once: screen targets at the render size, SSAO at half of it, and a
    square bloom target and blur buffer whose side is the largest power of two not above the
    render width.
  - `draw` runs the frame as passes. Each pass binds a target, draws into it and unbinds it.
    It changes the GL switches (depth test, depth writes and function, blending, culled
    face, sRGB) along the way.
  - Also modelled: `resize`, `clean` and `keyPressed`.
  - The GL context is a class (`Graphics.Context`) whose fields are those switches, plus a
    ghost log of binds, unbinds, clears and draw calls. Each logged draw call carries the
    state it ran under.
  - Module `FrameSpec` states one frame as a function of the lights, object count,
    point-light count, targets and screen size. It proves that the frame keeps the
    bind/unbind protocol, runs the passes in their fixed order, and runs every draw call under
    the settings its pass calls for.
- **Variance shadow-map arrays** (`VarianceShadowMapArray.cpp`, module `ShadowMaps`).
  - The 2D array has one layer per light; the cube array has one cube (six layers) per point
    light. Light `lid` is registered with slot `lid`.
  - Each `draw` returns the GL calls it issues, in order. Lemmas show:
    - which layers are bound: `lid` for each casting light, or `6*lid+i` for each casting
      point light;
    - every layer is cleared before anything is drawn into it;
    - exactly the shadow-casting, visible objects are drawn, in scene order;
    - each draw is preceded by its cull state and, for masked objects, its texture binding;
    - the blur runs once, at the end.
- **Directional lights** (`DirectionalLight.cpp`, module `DirectionalLights`): `init`, the
  `bind` / `blurAndUnbind` protocol around the shadow pass, `update` and `clean`.
- **Scene objects** (`Object.cpp`, module `SceneObjects`).
  - `decode` is a key dispatch over parameters. For each field, the last parameter that sets
    it wins; textures accumulate; an animation list is replaced; unknown keys are ignored.
  - `update` folds the animations over the model transform.
  - The decoders, the mesh lookup and `Animation::apply` are function-valued inputs.
- **The CPU side of `Buffer<T>`** (`Buffer.hpp`, module `Buffers`).
  - A sequence with a fixed byte capacity.
  - Calls to the GPU base class are recorded in a log with their byte counts and offsets.
- **The ray tracer's configuration** (`src/apps/raytracerdemo/main.cpp`, module
  `RaytracerDemo`).
  - Key/value overrides with minimum value counts; later arguments win.
  - The default output name, the help entries, and the early exits of `main`.
- **The atmosphere demo's frame timing** (`src/apps/atmosphere/main.cpp`, module
  `AtmosphereLoop`).
  - A 20-slot ring of frame durations with a running sum.
  - A clamp-then-consume fixed-step physics accumulator.
  - Durations are reals.

Matrices and bounding boxes are symbolic terms (`Geometry`): `ortho`, `lookAt`, products and
`transformed` are constructors, never evaluated. `Wrappers` holds `Option`.

## Model

| member | source | states |
|---|---|---|
| DeferredRenderer.HalfOfTruncated | src/Renderer.cpp:24-27 | for a non-negative render size, truncating half of it equals halving the truncated size, so the SSAO target is half a full target |
| DeferredRenderer.Pow2Floor | src/Renderer.cpp:29 | for n >= 1 the result is a power of two r with r <= n < 2r |
| DeferredRenderer.Pow2FloorIsLargest | src/Renderer.cpp:29 | no power of two at most n exceeds Pow2Floor(n) |
| DeferredRenderer.BloomSide | src/Renderer.cpp:29 | for a render width w >= 1 the side is a power of two s with s <= w < 2s; for a width below 1 the power is a fraction and truncates to 0 |
| DeferredRenderer.BloomSideIsLargest | src/Renderer.cpp:29 | every power of two that fits in the render width is at most the bloom side |
| DeferredRenderer.ReleaseOnce | src/Renderer.cpp:225-242 | the release order has 15 entries, pairwise distinct, and contains every resource |
| DeferredRenderer.Respond | src/Renderer.cpp:259-269 | a reload happens exactly on release of P; the event goes to the camera exactly on a press or on the release of another key, with its key and its pressed flag; other actions are ignored |
| DeferredRenderer.Casters | src/Renderer.cpp:100-107 | the shadow pass sees one caster per light, in scene order, built from that light's targets and mvp |
| DeferredRenderer.CreateTargets | src/Renderer.cpp:24-38 | G-buffer, SSAO-blur, scene, tone-mapping and FXAA targets at the truncated render size; SSAO at half of it; bloom and blur square with the bloom side; names non-zero, fresh and increasing in creation order |
| DeferredRenderer.InitLights | src/Renderer.cpp:68-70 | every directional light ends up initialised with the G-buffer textures plus its own shadowMap entry, with names above those handed out before |
| DeferredRenderer.Renderer.constructor | src/Renderer.cpp:15-82 | target sizes as in CreateTargets; depth test and back-face culling on; every light initialised; the ambient screen reads the G-buffer plus ssaoTexture; each screen quad reads the previous pass's target; the renderer is Valid |
| DeferredRenderer.Renderer.Draw | src/Renderer.cpp:85-217 | the log grows by exactly FrameEvents of the lights, objects, point lights, targets and screen; the context ends idle at screen size: depth test on with writes and LESS, blending off, back faces culled, sRGB off, default framebuffer bound |
| DeferredRenderer.Renderer.DrawGeometry | src/Renderer.cpp:100-142 | the shadow and G-buffer passes' events are appended, and the state is idle at the G-buffer size with depth testing off |
| DeferredRenderer.Renderer.DrawShadows | src/Renderer.cpp:100-107 | for each light in order, that light's bind, clear, object depths, blur and unbind are appended; the state stays idle |
| DeferredRenderer.Renderer.ShadowOne | src/Renderer.cpp:102-106 | one light's share of the shadow pass is appended |
| DeferredRenderer.Renderer.DrawEach | src/Renderer.cpp:103-105 | the draw call of item i, for every i below n, in order, all under the current state, which is unchanged |
| DeferredRenderer.Renderer.DrawGBuffer | src/Renderer.cpp:113-139 | bind, depth clear, objects, light markers, background under LEQUAL without depth writes, unbind; depth state restored |
| DeferredRenderer.Renderer.DrawScreenPasses | src/Renderer.cpp:145-180 | SSAO, SSAO blur, lighting and bloom selection are appended in that order; ends with blending off and back faces culled |
| DeferredRenderer.Renderer.QuadPass | src/Renderer.cpp:145-148 | bind the target, set its viewport, draw one quad, unbind |
| DeferredRenderer.Renderer.DrawLighting | src/Renderer.cpp:157-174 | ambient, then every directional light with blending, then every point light with blending and front faces culled; blending off and back culling restored |
| DeferredRenderer.Renderer.DrawPostProcess | src/Renderer.cpp:183-213 | bloom blur, composite, tone mapping, FXAA and the final quad are appended; the context ends idle at screen size |
| DeferredRenderer.Renderer.Composite | src/Renderer.cpp:186-191 | the blurred bloom is drawn into the scene target with blending on, which is off again afterwards |
| DeferredRenderer.Renderer.Resize | src/Renderer.cpp:245-257 | viewport and screen take the window size; G-buffer, SSAO-blur, scene, tone-mapping and FXAA targets take the render size and SSAO half of it, keeping their names; bloom and blur keep their size; Valid is preserved |
| DeferredRenderer.Renderer.Clean | src/Renderer.cpp:225-242 | the fifteen resources are released in source order |
| DeferredRenderer.Renderer.KeyPressed | src/Renderer.cpp:259-269 | the response to the event is recorded unless it is ignored |
| FrameSpec.Draws | src/Renderer.cpp:103-105 | a loop over n items yields n draw calls, item i's at index i, all under the given state |
| FrameSpec.ShadowBracketed | src/Renderer.cpp:100-107 | the shadow pass keeps the bind/unbind protocol |
| FrameSpec.GBufferBracketed | src/Renderer.cpp:113-139 | the G-buffer pass keeps the protocol |
| FrameSpec.LightingBracketed | src/Renderer.cpp:157-174 | the lighting pass keeps the protocol |
| FrameSpec.QuadBracketed | src/Renderer.cpp:145-154 | a full-screen pass keeps the protocol |
| FrameSpec.FrameBracketed | src/Renderer.cpp:100-213 | in a whole frame each bind is matched by the unbind of the same target before the next bind; clears and draws go only into the bound target at its viewport; draws outside a target go to the default framebuffer; nothing is left bound |
| FrameSpec.ShadowInPass | src/Renderer.cpp:100-107 | every draw call of the shadow pass belongs to the shadow pass |
| FrameSpec.GBufferInPass | src/Renderer.cpp:113-139 | every draw call of the G-buffer pass belongs to it |
| FrameSpec.LightingInPass | src/Renderer.cpp:157-174 | every draw call of the lighting pass belongs to it |
| FrameSpec.QuadInPass | src/Renderer.cpp:145-154 | a full-screen pass draws only its own quad |
| FrameSpec.PostInPass | src/Renderer.cpp:183-213 | the bloom blur, the composite and the final quad each draw in their own pass |
| FrameSpec.ScreenPassesOrdered | src/Renderer.cpp:145-180 | after passes up to the G-buffer, SSAO, SSAO blur, lighting and bloom selection keep the pass order |
| FrameSpec.PostProcessOrdered | src/Renderer.cpp:183-211 | after passes up to bloom selection, blur, composite, tone map, FXAA and final keep the pass order |
| FrameSpec.FrameOrdered | src/Renderer.cpp:100-211 | draw calls of a frame run pass by pass: shadows, G-buffer, SSAO, SSAO blur, lighting, bloom, blur, composite, tone map, FXAA, final |
| FrameSpec.ShadowsOnlyWithCasters | src/Renderer.cpp:100-107 | the shadow pass is empty exactly when there are no lights |
| FrameSpec.ShadowObeys | src/Renderer.cpp:100-107 | object depths run depth tested and each light's blur without depth testing; none is blended, culls front faces or uses sRGB |
| FrameSpec.GBufferObeys | src/Renderer.cpp:113-139 | G-buffer draws run depth tested; only the background runs without depth writes and under LEQUAL |
| FrameSpec.LightingObeys | src/Renderer.cpp:161-173 | only the light draws are blended, and only point lights cull front faces |
| FrameSpec.QuadObeys | src/Renderer.cpp:145-154 | when a quad's kind calls for the full-screen state, the pass's only draw obeys its settings |
| FrameSpec.FrameObeys | src/Renderer.cpp:129-213 | in a whole frame, blending is on exactly for light accumulation and the bloom composite; front-face culling exactly for point lights; sRGB exactly for the final quad; depth testing exactly for geometry; depth writes off and LEQUAL exactly for the background |
| DirectionalLights.DirectionalLight.constructor | src/engine/lights/DirectionalLight.cpp:11-17 | stores the direction; the projection is the orthographic box of the extent; view and mvp agree with them |
| DirectionalLights.DirectionalLight.Init | src/engine/lights/DirectionalLight.cpp:20-30 | shadow and blur targets are 512x512 with fresh names; the quad reads every given texture plus shadowMap set to the blur texture, which overrides a same-named entry |
| DirectionalLights.DirectionalLight.Bind | src/engine/lights/DirectionalLight.cpp:52-60 | the shadow target is bound with its viewport, the clear colour is white, colour and depth are cleared; nothing else changes |
| DirectionalLights.DirectionalLight.BlurAndUnbind | src/engine/lights/DirectionalLight.cpp:62-78 | unbind shadow, bind blur, draw the blur with depth testing off and the blur viewport, unbind blur; depth testing is on at the end |
| DirectionalLights.DirectionalLight.Update | src/engine/lights/DirectionalLight.cpp:80-84 | direction and view are replaced and mvp recomputed; the projection is unchanged |
| DirectionalLights.DirectionalLight.Clean | src/engine/lights/DirectionalLight.cpp:86-90 | the blur target, blur screen and shadow target are released in that order |
| DirectionalLights.LightReleaseOnce | src/engine/lights/DirectionalLight.cpp:86-90 | the release order names each of the three resources exactly once |
| SceneObjects.DecodeTextures | src/engine/scene/Object.cpp:40-44 | one decoded texture per nested entry, in entry order |
| SceneObjects.ParamEffect | src/engine/scene/Object.cpp:26-53 | one parameter changes only the field its key names, and only under that key's condition: type with a known name, mesh with a value, the flags, textures appended, animations replaced; the model never changes |
| SceneObjects.DecodedMaterial | src/engine/scene/Object.cpp:15-32 | the material is the one named by the last type parameter with a known name; otherwise it is unchanged |
| SceneObjects.DecodedMesh | src/engine/scene/Object.cpp:33-35 | the mesh comes from the last mesh parameter that has a value; otherwise it is unchanged |
| SceneObjects.DecodedFlag | src/engine/scene/Object.cpp:37-51 | shadows, twosided and masked each come from the last parameter with that key; otherwise they are unchanged |
| SceneObjects.DecodedAnimations | src/engine/scene/Object.cpp:46-47 | the animation list is the last animations parameter's list, replacing the old list rather than merging with it |
| SceneObjects.DecodedTexturesAndModel | src/engine/scene/Object.cpp:40-44 | every textures parameter appends its entries after the existing ones, in order; the loop leaves the model alone |
| SceneObjects.UnrecognisedIgnored | src/engine/scene/Object.cpp:26-53 | inserting a parameter with an unknown key anywhere in the list does not change the decoded state |
| SceneObjects.AnimateConcat | src/engine/scene/Object.cpp:64-70 | animating with a + b is animating with a and then with b |
| SceneObjects.Object.constructor | src/engine/scene/Object.cpp:6-10 | material, mesh and shadow flag are exactly the given ones; no textures or animations |
| SceneObjects.Object.Decode | src/engine/scene/Object.cpp:12-54 | the model is replaced by the decoded transformation, then every parameter is applied in order |
| SceneObjects.Object.ApplyParam | src/engine/scene/Object.cpp:27-52 | one loop iteration has exactly the effect of its parameter |
| SceneObjects.Object.AddTextures | src/engine/scene/Object.cpp:41-44 | the decoded entries are appended in order; nothing else changes |
| SceneObjects.Object.AddTexture | src/engine/scene/Object.cpp:56-58 | appends one texture; nothing else changes |
| SceneObjects.Object.AddAnimation | src/engine/scene/Object.cpp:60-62 | appends one animation; nothing else changes |
| SceneObjects.Object.Update | src/engine/scene/Object.cpp:64-70 | the model becomes the left fold of the animations over it, in list order; nothing else changes |
| Buffers.Resized | src/engine/resources/Buffer.hpp:188 | vector resize keeps the first elements and pads with the blank element up to the new length |
| Buffers.Buffer.constructor | src/engine/resources/Buffer.hpp:170-173 | size() == count, sizeMax == count * sizeof(T), count blank elements, no transfers |
| Buffers.Buffer.Set | src/engine/resources/Buffer.hpp:93-119 | writing through the reference operator[] and at() return: element i becomes v and reads back as v, every other element reads back as before, the size is unchanged |
| Buffers.Buffer.Upload | src/engine/resources/Buffer.hpp:176-178 | one upload of size() * sizeof(T) bytes of the data at offset 0 is logged |
| Buffers.Buffer.UploadRange | src/engine/resources/Buffer.hpp:181-183 | one upload of count * sizeof(T) bytes from the start of the data, at the given offset, is logged |
| Buffers.Buffer.Download | src/engine/resources/Buffer.hpp:186-190 | the data is resized to sizeMax / sizeof(T) elements, then a download of that many elements' bytes at offset 0 is logged |
| Buffers.Buffer.ClearCPU | src/engine/resources/Buffer.hpp:193-195 | the CPU data is empty; capacity, type and usage are constants |
| Buffers.Buffer.Destroy | src/engine/resources/Buffer.hpp:198-201 | the CPU data is cleared |
| RaytracerDemo.Stoi | src/apps/raytracerdemo/main.cpp:36 | a parsable digit string converts to a value within the 32-bit int range, and one without a leading zero is exactly what std::to_string writes for that value |
| RaytracerDemo.StoiRoundTrip | src/apps/raytracerdemo/main.cpp:36-51 | every value up to INT_MAX is parsable once written by std::to_string, and std::stoi reads it back unchanged |
| RaytracerDemo.CanonicalRoundTrip | src/apps/raytracerdemo/main.cpp:36-51 | a digit string without a leading zero is what std::to_string writes for its value |
| RaytracerDemo.ToString | src/apps/raytracerdemo/main.cpp:50-51 | decimal digits without a leading zero |
| RaytracerDemo.ToStringRoundTrip | src/apps/raytracerdemo/main.cpp:50-51 | reading back the digits gives the number |
| RaytracerDemo.LastIndex | src/apps/raytracerdemo/main.cpp:31-47 | the index of the last argument with the key and enough values; no later argument applies; None exactly when none applies |
| RaytracerDemo.ParseStep | src/apps/raytracerdemo/main.cpp:35-46 | one more argument sets samples, depth or the size from its values when it carries that key with enough values, and leaves them as they were otherwise |
| RaytracerDemo.NameStep | src/apps/raytracerdemo/main.cpp:39-42 | one more argument sets the scene or output path to its first value when it carries that key with a value, and leaves them as they were otherwise |
| RaytracerDemo.Parse | src/apps/raytracerdemo/main.cpp:28-68 | each setting comes from its last applicable argument or keeps its default (1024x1024, 8, 5, empty); an empty output becomes ./test_scene_samples_depth_WxH.png; six help entries follow the base ones |
| RaytracerDemo.Start | src/apps/raytracerdemo/main.cpp:81-89 | help exits with 0; otherwise an empty scene exits with 1; otherwise rendering starts with the parsed configuration: the non-empty scene, samples, depth, image size (used at lines 107-110), the output path saved to at line 218 (the given one, or the default name built from the final settings) and the help entries |
| AtmosphereLoop.SumUpdate | src/apps/atmosphere/main.cpp:100-102 | overwriting one slot changes the sum by the new value minus the old |
| AtmosphereLoop.ZeroSum | src/apps/atmosphere/main.cpp:74-76 | a window of zeros sums to zero, matching the initial smoothed time |
| AtmosphereLoop.TimingWindow.constructor | src/apps/atmosphere/main.cpp:73-76 | 20 zero slots, cursor 0, smoothed time 0 |
| AtmosphereLoop.TimingWindow.Record | src/apps/atmosphere/main.cpp:100-104 | the cursor slot takes the duration in milliseconds; the cursor advances modulo 20 and stays below 20; the running sum stays the window's sum; the average is sum / 20 |
| AtmosphereLoop.Clamp | src/apps/atmosphere/main.cpp:109-111 | the frame time is kept when at most 0.2 and is 0.2 otherwise |
| AtmosphereLoop.Consume | src/apps/atmosphere/main.cpp:109-122 | afterwards remaining <= 0.2*dt and is non-negative when it started so; full + remaining grows by the clamped frame time; full grows by the steps' sum; every step lies in (0.2*dt, dt], every step but the last is exactly dt, and a last step shorter than dt leaves nothing remaining |
| AtmosphereLoop.FrameClock.constructor | src/apps/atmosphere/main.cpp:48-51 | timer at the clock reading, both accumulators zero |
| AtmosphereLoop.FrameClock.Frame | src/apps/atmosphere/main.cpp:94-127 | the frame time is the clock delta; it is recorded and consumed as above; the reported average is the new window's sum over 20; a resize to the screen size is reported exactly when one was signalled |
| ShadowMaps.CastersExactly | src/engine/renderers/shadowmaps/VarianceShadowMapArray.cpp:25-29 | the casting lights' indices are strictly increasing, and index k is listed exactly when light k exists and casts shadows |
| ShadowMaps.ShownExactly | src/engine/renderers/shadowmaps/VarianceShadowMapArray.cpp:35-42 | the drawn objects' indices are strictly increasing, and k is listed exactly when object k casts shadows and the frustum intersects its box |
| ShadowMaps.FaceLayersExactly | src/engine/renderers/shadowmaps/VarianceShadowMapArray.cpp:89-91 | face i of light lid is layer 6*lid + i |
| ShadowMaps.CubeLayersExactly | src/engine/renderers/shadowmaps/VarianceShadowMapArray.cpp:78-91 | the cube layers are strictly increasing, hence distinct, and x is bound exactly when light x/6 exists and casts shadows, so every layer is below 6 times the light count |
| ShadowMaps.ObjectListed | src/engine/renderers/shadowmaps/VarianceShadowMapArray.cpp:35-52 | one object's calls bind no layer and draw it exactly when it casts shadows and is visible |
| ShadowMaps.ObjectTracked | src/engine/renderers/shadowmaps/VarianceShadowMapArray.cpp:35-52 | one object's calls keep a cleared layer cleared |
| ShadowMaps.ObjectPrepared | src/engine/renderers/shadowmaps/VarianceShadowMapArray.cpp:43-51 | culling is set from two-sidedness and the first texture bound for a masked object right before its draw, whose mvp is the light matrix times the model |
| ShadowMaps.SceneListed | src/engine/renderers/shadowmaps/VarianceShadowMapArray.cpp:35-52 | the object loop binds no layer and draws exactly the shown objects, in scene order |
| ShadowMaps.SceneTracked | src/engine/renderers/shadowmaps/VarianceShadowMapArray.cpp:35-52 | the object loop keeps a cleared layer cleared |
| ShadowMaps.ScenePrepared | src/engine/renderers/shadowmaps/VarianceShadowMapArray.cpp:35-52 | every draw of the object loop is prepared, is of an existing object, and uses the light matrix times that object's model |
| ShadowMaps.LayerListed | src/engine/renderers/shadowmaps/VarianceShadowMapArray.cpp:30-52 | one layer's calls bind exactly that layer and draw exactly the shown objects |
| ShadowMaps.LayerTracked | src/engine/renderers/shadowmaps/VarianceShadowMapArray.cpp:30-31 | after one layer's calls that layer is bound and cleared, whatever came before |
| ShadowMaps.LayerPrepared | src/engine/renderers/shadowmaps/VarianceShadowMapArray.cpp:30-52 | one layer's draws are prepared, with no blur, depth, blend or viewport call |
| ShadowMaps.Lights2DListed | src/engine/renderers/shadowmaps/VarianceShadowMapArray.cpp:25-53 | the light loop binds layer lid for exactly the casting lights, in order |
| ShadowMaps.Lights2DDrawn | src/engine/renderers/shadowmaps/VarianceShadowMapArray.cpp:25-53 | the light loop draws, light after light, exactly the objects each casting light's frustum shows, so a light that casts no shadow draws nothing |
| ShadowMaps.Lights2DTracked | src/engine/renderers/shadowmaps/VarianceShadowMapArray.cpp:25-53 | the light loop never draws into a layer not cleared since it was bound |
| ShadowMaps.Lights2DPrepared | src/engine/renderers/shadowmaps/VarianceShadowMapArray.cpp:25-53 | every draw of the light loop is prepared |
| ShadowMaps.FacesListed | src/engine/renderers/shadowmaps/VarianceShadowMapArray.cpp:89-114 | the first f faces bind layers 6*lid to 6*lid + f - 1 in order |
| ShadowMaps.FacesTracked | src/engine/renderers/shadowmaps/VarianceShadowMapArray.cpp:89-114 | the faces never draw into an uncleared layer |
| ShadowMaps.FacesDrawn | src/engine/renderers/shadowmaps/VarianceShadowMapArray.cpp:89-114 | the first f faces draw, face after face, exactly the objects each face's frustum shows |
| ShadowMaps.FacesPrepared | src/engine/renderers/shadowmaps/VarianceShadowMapArray.cpp:89-114 | every draw of the faces is prepared |
| ShadowMaps.LightsCubeListed | src/engine/renderers/shadowmaps/VarianceShadowMapArray.cpp:78-115 | the cube light loop binds the six layers of exactly the casting point lights, in order |
| ShadowMaps.LightsCubeDrawn | src/engine/renderers/shadowmaps/VarianceShadowMapArray.cpp:78-115 | the cube light loop draws, light after light, exactly what the six faces of each casting point light show, and nothing for the others |
| ShadowMaps.LightsCubeTracked | src/engine/renderers/shadowmaps/VarianceShadowMapArray.cpp:78-115 | the cube light loop never draws into an uncleared layer |
| ShadowMaps.LightsCubePrepared | src/engine/renderers/shadowmaps/VarianceShadowMapArray.cpp:78-115 | every draw of the cube light loop is prepared |
| ShadowMaps.Draw2DLayers | src/engine/renderers/shadowmaps/VarianceShadowMapArray.cpp:16-57 | the 2D draw binds layer lid for exactly the casting lights, in order, and clears every layer before drawing into it |
| ShadowMaps.Draw2DDrawn | src/engine/renderers/shadowmaps/VarianceShadowMapArray.cpp:16-57 | the 2D draw draws exactly the objects each casting light shows, light after light |
| ShadowMaps.Draw2DFramed | src/engine/renderers/shadowmaps/VarianceShadowMapArray.cpp:16-57 | the 2D draw sets depth, blend, cull and viewport only in its first four calls, ends with the one blur of its texture, and prepares every draw |
| ShadowMaps.DrawCubeLayers | src/engine/renderers/shadowmaps/VarianceShadowMapArray.cpp:70-118 | the cube draw binds the six layers of exactly the casting lights, in order and each once, and clears every layer before drawing into it |
| ShadowMaps.DrawCubeFramed | src/engine/renderers/shadowmaps/VarianceShadowMapArray.cpp:70-118 | the cube draw sets its state only in its first four calls, ends with the one cube blur of its texture, and prepares every draw |
| ShadowMaps.DrawCubeDrawn | src/engine/renderers/shadowmaps/VarianceShadowMapArray.cpp:70-118 | the cube draw draws exactly what the faces of each casting point light show, light after light |
| ShadowMaps.Light.RegisterShadowMap | src/engine/renderers/shadowmaps/VarianceShadowMapArray.cpp:12 | the light records the texture and slot it was registered with |
| ShadowMaps.PointLight.RegisterShadowMap | src/engine/renderers/shadowmaps/VarianceShadowMapArray.cpp:66 | the point light records the texture and slot it was registered with |
| ShadowMaps.DrawLayer | src/engine/renderers/shadowmaps/VarianceShadowMapArray.cpp:30-52 | the loop issues exactly LayerCalls: bind, clear to white and depth 1, then each shown object's calls in scene order |
| ShadowMaps.DrawFaces | src/engine/renderers/shadowmaps/VarianceShadowMapArray.cpp:89-114 | the face loop issues exactly the six faces' layers, face i into layer 6*lid + i |
| ShadowMaps.ShadowMap2DArray.constructor | src/engine/renderers/shadowmaps/VarianceShadowMapArray.cpp:5-14 | one layer per light at the given resolution; light k is registered with slot k (the last slot, for a light listed twice); the lights are otherwise unchanged |
| ShadowMaps.ShadowMap2DArray.Draw | src/engine/renderers/shadowmaps/VarianceShadowMapArray.cpp:16-57 | the calls are exactly Draw2DCalls of the lights: depth LESS with writes, blending off, back culling, viewport, light loop, one blur |
| ShadowMaps.ShadowMapCubeArray.constructor | src/engine/renderers/shadowmaps/VarianceShadowMapArray.cpp:59-68 | six layers per light at the given side; light k is registered with slot k (the last slot, for a light listed twice); the lights are otherwise unchanged |
| ShadowMaps.ShadowMapCubeArray.Draw | src/engine/renderers/shadowmaps/VarianceShadowMapArray.cpp:70-118 | the calls are exactly DrawCubeCalls of the lights: depth LESS with writes, back culling, blending off, viewport, six faces per casting light, one blur |

## Left out

- `Renderer::physics`, the frame timer in `Renderer::draw` and `Scene::update`: these are clock reads and calls into the camera and scene, which are not part of this model.
- `Renderer::joystick`, `buttonPressed` and `mousePosition`: camera input forwarding only.
- The camera: its `renderSize` rule is an input (`RenderSize`); its view and projection are not modelled. `Respond` records what is forwarded to it. Its `screenSize()` is taken to be the window size given to the constructor and to `resize` (`screen`), which sets the final pass's viewport (src/Renderer.cpp:210) and `FinalEvents`.
- Shader programs, uniforms (the lights' colours and matrices; the point light's position and far plane; `hasMask` and `m` in the shadow maps), texture contents and pixel results.
- `DirectionalLight::draw`: it is one logged draw call of the lighting pass; its uniform set-up is not modelled.
- Point lights in `Renderer.cpp`: their `init`, `drawDebug` and `draw` are one logged call each; the class is not part of this model.
- Blur (`Blur::process`, `Blur::draw`) and the shadow arrays' `BoxBlur`: each is one event; their bodies are not part of this model.
- `Light::registerShadowMap`'s body is not part of this model; registration is recorded as the texture and slot.
- `Frustum::intersects`, `BoundingBox::transformed`, `glm::ortho`, `glm::lookAt` and matrix products: symbolic terms or the function parameter `visible`, never evaluated.
- ShadowMaps.ShadowMap2DArray.constructor: the float resolution's conversion to `uint` is not modelled; the extents are given as naturals.
- ShadowMaps.ShadowMapCubeArray.constructor: the framebuffer is created with `lights.size()` cubes; the model counts the layers as six per cube.
- ShadowMaps.ShadowMapCubeArray.Draw: requires six face matrices per point light; `vpFaces` is not part of this model.
- ShadowMaps.AllDrawable: a masked object is required to have a texture, since the source reads `textures()[0]` without checking.
- DeferredRenderer.Renderer.Draw: does not restate Valid() afterwards; it changes only the context's switches and log, so the targets and lights are untouched.
- DeferredRenderer.BloomSide: `log2`, `floor` and `pow` are taken as exact; floating-point rounding near powers of two is not modelled.
- The `Object` default constructor and the field defaults declared in `Object.hpp`: that header is not part of this model.
- `Object::boundingBox`: a symbolic term (the mesh box transformed by the model).
- The decoders (`Codable::decodeTransformation`, `decodeBool`, `decodeTexture`, `Animation::decode`) and `Resources::manager().getMesh`: function-valued inputs.
- Buffers.Buffer.Download: the bytes written by the GPU read-back are not modelled; only the call is logged.
- Buffers.Buffer: `size_t` overflow of `count * sizeof(T)` is not modelled; integers are unbounded.
- The `Config` base class (splitting argv, the help flag, printing help) and the ray tracer's render loop, scene loading and image saving.
- RaytracerDemo.Parse: `std::stoi` is modelled only on unsigned digit strings within the int range, and `WellFormed` excludes every other value string. The source accepts more: leading whitespace, a sign and trailing characters (`" 7"` and `"7x"` both give 7, and `"-3"` gives -3, which `size_t(...)` wraps for the samples and the depth). Only a string that does not start with a number, or whose number is out of the int range, throws. The model says nothing about those inputs.
- AtmosphereLoop: durations are reals, not `double`; the running sum is exact only under that abstraction. GLFW, ImGui, the input manager, rendering and buffer swaps are left out.
- `src/engine/helpers/System.cpp`: window, GUI and file-system plumbing.

`Renderer::resize` does not resize the bloom target or the blur buffer (src/Renderer.cpp:245-257), so they keep their construction size.
