/**
 * The deferred renderer (src/Renderer.cpp): the sizes of its render targets, the
 * sequence of passes one frame runs against the GL context, resizing, release of its
 * resources and its response to keys.
 *
 * The camera is reduced to what the renderer reads from it: the render size it derives
 * from the screen size (an input here, as the camera's rule is not part of this model),
 * and the key events forwarded to it. Objects and point lights are counted, not
 * modelled: drawing one is a single logged draw call.
 */
module DeferredRenderer {

  import opened Wrappers
  import opened Geometry
  import opened Graphics
  import opened FrameSpec
  import opened DirectionalLights

  /** Camera::renderSize(), a pair of floats. */
  datatype RenderSize = RenderSize(width: real, height: real)

  // ---------------------------------------------------------------------------
  // Sizing.

  /** The C++ conversion of a floating-point value to int: truncation toward zero. */
  function Truncate(x: real): int
  {
    if x >= 0.0 then x.Floor else -((-x).Floor)
  }

  /** Size of a screen-sized target: the render size, truncated. */
  function FullExtent(rs: RenderSize): Size
  {
    Size(Truncate(rs.width), Truncate(rs.height))
  }

  /** Size of the SSAO target: half the render size, truncated. */
  function HalfExtent(rs: RenderSize): Size
  {
    Size(Truncate(0.5 * rs.width), Truncate(0.5 * rs.height))
  }

  /** Halving before truncating a non-negative size is halving the truncated size. */
  lemma HalfOfTruncated(w: real)
    requires w >= 0.0
    ensures Truncate(0.5 * w) == Truncate(w) / 2
  {
    var n := w.Floor;
    var q := n / 2;
    assert n as real <= w < n as real + 1.0;
    assert n == 2 * q || n == 2 * q + 1;
    assert q as real <= 0.5 * w < q as real + 1.0;
  }

  predicate IsPow2(n: int)
    decreases n
  {
    n >= 1 && (n == 1 || (n % 2 == 0 && IsPow2(n / 2)))
  }

  /** The largest power of two not above n. */
  function Pow2Floor(n: int): (r: int)
    requires n >= 1
    ensures IsPow2(r) && r <= n < 2 * r
    decreases n
  {
    if n == 1 then 1 else 2 * Pow2Floor(n / 2)
  }

  /** No power of two at most n exceeds Pow2Floor(n). */
  lemma {:induction false} Pow2FloorIsLargest(n: int, p: int)
    requires n >= 1 && IsPow2(p) && p <= n
    ensures p <= Pow2Floor(n)
    decreases p
  {
    if p != 1 {
      Pow2FloorIsLargest(n / 2, p / 2);
    }
  }

  /**
   * pow(2, (int)floor(log2(w))), converted to int: the largest power of two not above
   * the render width; for a width below one the power is a fraction and truncates to 0.
   */
  function BloomSide(w: real): (side: int)
    requires w > 0.0
    ensures w >= 1.0 ==> IsPow2(side) && side as real <= w < 2.0 * side as real
    ensures w < 1.0 ==> side == 0
  {
    if w < 1.0 then 0 else Pow2Floor(w.Floor)
  }

  /** The bloom side is the largest power of two that fits in the render width. */
  lemma BloomSideIsLargest(w: real, p: int)
    requires w > 0.0 && IsPow2(p) && p as real <= w
    ensures p <= BloomSide(w)
  {
    assert p <= w.Floor;
    Pow2FloorIsLargest(w.Floor, p);
  }

  // ---------------------------------------------------------------------------
  // Resources and input.

  /** The fifteen objects Renderer::clean releases. */
  datatype Resource =
    | SceneData | AmbientScreen | FxaaScreen | SsaoBlurScreen | BloomScreen | ToneMappingScreen
    | FinalScreen | GBufferTarget | BlurBuffer | SsaoTarget | SsaoBlurTarget | BloomTarget
    | SceneTarget | ToneMappingTarget | FxaaTarget

  /** The order of release in Renderer::clean. */
  const ReleaseOrder: seq<Resource> :=
    [SceneData, AmbientScreen, FxaaScreen, SsaoBlurScreen, BloomScreen, ToneMappingScreen,
     FinalScreen, GBufferTarget, BlurBuffer, SsaoTarget, SsaoBlurTarget, BloomTarget,
     SceneTarget, ToneMappingTarget, FxaaTarget]

  /** clean releases each of the fifteen resources exactly once. */
  lemma ReleaseOnce()
    ensures |ReleaseOrder| == 15
    ensures forall i, j :: 0 <= i < j < |ReleaseOrder| ==> ReleaseOrder[i] != ReleaseOrder[j]
    ensures forall r: Resource :: r in ReleaseOrder
  {
    forall r: Resource
      ensures r in ReleaseOrder
    {
      var order := ReleaseOrder;
      match r
      case SceneData => assert order[0] == r;
      case AmbientScreen => assert order[1] == r;
      case FxaaScreen => assert order[2] == r;
      case SsaoBlurScreen => assert order[3] == r;
      case BloomScreen => assert order[4] == r;
      case ToneMappingScreen => assert order[5] == r;
      case FinalScreen => assert order[6] == r;
      case GBufferTarget => assert order[7] == r;
      case BlurBuffer => assert order[8] == r;
      case SsaoTarget => assert order[9] == r;
      case SsaoBlurTarget => assert order[10] == r;
      case BloomTarget => assert order[11] == r;
      case SceneTarget => assert order[12] == r;
      case ToneMappingTarget => assert order[13] == r;
      case FxaaTarget => assert order[14] == r;
    }
  }

  const KeyRelease: int := 0   // GLFW_RELEASE
  const KeyPress: int := 1     // GLFW_PRESS
  const KeyP: int := 80        // GLFW_KEY_P

  /** What a key event leads to. */
  datatype Response = CameraKey(key: int, pressed: bool) | Reload | Ignored

  /**
   * keyPressed: a press goes to the camera as pressed; releasing P reloads the
   * resources and is not forwarded; any other release goes to the camera as released;
   * other actions (repeats) do nothing.
   */
  function Respond(key: int, action: int): (r: Response)
    ensures r == Reload <==> action == KeyRelease && key == KeyP
    ensures r.CameraKey? <==> action == KeyPress || (action == KeyRelease && key != KeyP)
    ensures r.CameraKey? ==> r.key == key && (r.pressed <==> action == KeyPress)
  {
    if action == KeyPress then CameraKey(key, true)
    else if action == KeyRelease then (if key == KeyP then Reload else CameraKey(key, false))
    else Ignored
  }

  /** Which target each screen quad reads. */
  datatype Wiring = Wiring(
    ambient: map<string, nat>,
    ssaoBlurInput: nat,
    bloomInput: nat,
    toneMappingInput: nat,
    fxaaInput: nat,
    finalInput: nat)

  /** What the shadow pass draws for one initialised light. */
  function CasterOf(l: DirectionalLight): ShadowCaster
    reads l
    requires l.Ready()
  {
    ShadowCaster(l.shadowPass.value, l.blurPass.value, l.mvp)
  }

  /** The shadow-pass view of the lights, in scene order. */
  function Casters(lights: seq<DirectionalLight>): (r: seq<ShadowCaster>)
    reads lights
    requires forall k :: 0 <= k < |lights| ==> lights[k].Ready()
    ensures |r| == |lights|
    ensures forall k :: 0 <= k < |lights| ==> r[k] == CasterOf(lights[k])
  {
    if lights == [] then []
    else Casters(lights[..|lights| - 1]) + [CasterOf(lights[|lights| - 1])]
  }

  /** A state that is idle apart from the viewport. */
  predicate IdleAt(st: GLState)
  {
    st == Idle(st.viewport)
  }

  class Renderer {
    const gl: Context
    const dirLights: seq<DirectionalLight>
    const pointCount: nat
    const objectCount: nat
    var renderSize: RenderSize
    var screen: Size
    var gbuffer: RenderTarget
    var ssao: RenderTarget
    var ssaoBlur: RenderTarget
    var scene: RenderTarget
    var bloom: RenderTarget
    var toneMapping: RenderTarget
    var fxaa: RenderTarget
    /** The Blur object, reduced to its size and names. */
    var blur: RenderTarget
    var wiring: Wiring
    /** Resources released so far, oldest first. */
    var released: seq<Resource>
    /** Key events acted on so far, oldest first. */
    var responses: seq<Response>

    function OwnTargets(): Targets
      reads this
    {
      Targets(gbuffer, ssao, ssaoBlur, scene, bloom, toneMapping, fxaa)
    }

    /** Every light has been initialised. */
    ghost predicate LightsReady()
      reads this, dirLights
    {
      forall k :: 0 <= k < |dirLights| ==> dirLights[k].Ready()
    }

    /** Every target has its own non-zero GL name, the lights' targets included. */
    ghost predicate DistinctNames()
      reads this, dirLights
      requires LightsReady()
    {
      && 0 < gbuffer.name < ssao.name < ssaoBlur.name < scene.name < bloom.name
      && bloom.name < toneMapping.name < fxaa.name < blur.name
      && forall k :: 0 <= k < |dirLights| ==>
           assert dirLights[k].Ready();
           blur.name < dirLights[k].shadowPass.value.name < dirLights[k].blurPass.value.name
    }

    /** Between frames: lights initialised, targets named apart, the context idle. */
    ghost predicate Valid()
      reads this, gl, dirLights
    {
      && LightsReady()
      && DistinctNames()
      && IdleAt(gl.State())
    }

    /**
     * Renderer(width, height, scene): every screen target at the render size, the SSAO
     * target at half of it, the bloom target and blur buffer square with the largest
     * power of two not above the render width; depth testing and back-face culling on;
     * every light initialised with the G-buffer textures; each screen quad reading the
     * previous pass's target.
     */
    constructor (width: int, height: int, gl: Context, lights: seq<DirectionalLight>,
                 points: nat, objects: nat, rs: RenderSize, gbufferTextures: map<string, nat>)
      requires rs.width > 0.0
      requires gl.nextName > 0
      requires gl.State() == GLState(DefaultFramebuffer, gl.viewport, gl.depthTest, true, Less, false, gl.cullFace, false)
      modifies gl, lights
      ensures Valid() && gl.culling
      ensures this.gl == gl && dirLights == lights && pointCount == points && objectCount == objects
      ensures renderSize == rs && screen == Size(width, height)
      ensures gbuffer.size == FullExtent(rs) && ssaoBlur.size == FullExtent(rs) && scene.size == FullExtent(rs)
      ensures toneMapping.size == FullExtent(rs) && fxaa.size == FullExtent(rs)
      ensures ssao.size == HalfExtent(rs)
      ensures bloom.size == Size(BloomSide(rs.width), BloomSide(rs.width)) && blur.size == bloom.size
      ensures wiring == Wiring(gbufferTextures["ssaoTexture" := ssaoBlur.texture],
                               ssao.texture, scene.texture, scene.texture, toneMapping.texture, fxaa.texture)
      ensures forall k :: 0 <= k < |lights| ==>
        lights[k].Ready() && lights[k].inputs == gbufferTextures["shadowMap" := lights[k].blurPass.value.texture]
      ensures released == [] && responses == []
    {
      this.gl := gl;
      dirLights := lights;
      pointCount := points;
      objectCount := objects;
      renderSize := rs;
      screen := Size(width, height);
      var targets, bb := CreateTargets(gl, rs);
      gbuffer, ssao, ssaoBlur, scene := targets.gbuffer, targets.ssao, targets.ssaoBlur, targets.scene;
      bloom, toneMapping, fxaa, blur := targets.bloom, targets.toneMapping, targets.fxaa, bb;
      wiring := Wiring(gbufferTextures["ssaoTexture" := targets.ssaoBlur.texture],
                       targets.ssao.texture, targets.scene.texture, targets.scene.texture,
                       targets.toneMapping.texture, targets.fxaa.texture);
      released := [];
      responses := [];
      new;
      gl.SetDepthTest(true);
      gl.SetCulling(true);
      gl.SetCullFace(Back);
      InitLights(gl, lights, gbufferTextures);
    }

    // -------------------------------------------------------------------------
    // One frame.

    /**
     * Renderer::draw: the frame's passes in order, each bracketed by the bind and
     * unbind of its target; the context is idle at screen size afterwards. Only the
     * context's switches and log change, so the lights and targets stay as Valid()
     * requires them.
     */
    method Draw()
      requires Valid()
      modifies gl`bound, gl`viewport, gl`depthTest, gl`depthMask, gl`depthFunc, gl`blend,
               gl`cullFace, gl`srgb, gl`clearColour, gl`trace
      ensures gl.trace == old(gl.trace) + FrameEvents(old(Casters(dirLights)), objectCount, pointCount, OwnTargets(), screen)
      ensures gl.State() == Idle(screen)
    {
      ghost var casters := Casters(dirLights);
      ghost var t0 := gl.trace;
      DrawGeometry(casters);
      ghost var acc := ShadowEvents(casters, objectCount) + GBufferEvents(gbuffer, objectCount, pointCount);
      DrawScreenPasses(t0, acc);
      acc := acc + QuadEvents(ssao, AmbientOcclusion) + QuadEvents(ssaoBlur, OcclusionBlur)
        + LightingEvents(scene, |dirLights|, pointCount) + QuadEvents(bloom, BloomSelect);
      DrawPostProcess(t0, acc);
      acc := acc + BlurEvents(bloom) + CompositeEvents(scene) + QuadEvents(toneMapping, ToneMap)
        + QuadEvents(fxaa, Antialias) + FinalEvents(screen);
      assert acc == FrameEvents(casters, objectCount, pointCount, OwnTargets(), screen);
    }

    /** The shadow and G-buffer passes, after which depth testing is off. */
    method DrawGeometry(ghost casters: seq<ShadowCaster>)
      requires LightsReady() && IdleAt(gl.State())
      requires casters == Casters(dirLights)
      modifies gl`bound, gl`viewport, gl`depthTest, gl`depthMask, gl`depthFunc, gl`clearColour, gl`trace
      ensures gl.State() == Idle(gbuffer.size).(depthTest := false)
      ensures gl.trace == old(gl.trace) + (ShadowEvents(casters, objectCount) + GBufferEvents(gbuffer, objectCount, pointCount))
    {
      ghost var t0 := gl.trace;
      DrawShadows(casters);
      DrawGBuffer();
      Logged(t0, ShadowEvents(casters, objectCount), GBufferEvents(gbuffer, objectCount, pointCount));
      gl.SetDepthTest(false);
    }

    /** SSAO, its blur, lighting and the bloom selection, each a pass of its own. */
    method DrawScreenPasses(ghost t0: seq<Event>, ghost acc: seq<Event>)
      requires IdleAt(gl.State().(depthTest := true)) && !gl.depthTest
      requires gl.trace == t0 + acc
      modifies gl`bound, gl`viewport, gl`blend, gl`cullFace, gl`trace
      ensures gl.State() == Idle(bloom.size).(depthTest := false)
      ensures gl.trace == t0 + (acc + QuadEvents(ssao, AmbientOcclusion) + QuadEvents(ssaoBlur, OcclusionBlur)
        + LightingEvents(scene, |dirLights|, pointCount) + QuadEvents(bloom, BloomSelect))
    {
      ghost var log := acc;
      QuadPass(ssao, AmbientOcclusion);
      Logged(t0, log, QuadEvents(ssao, AmbientOcclusion));
      log := log + QuadEvents(ssao, AmbientOcclusion);
      QuadPass(ssaoBlur, OcclusionBlur);
      Logged(t0, log, QuadEvents(ssaoBlur, OcclusionBlur));
      log := log + QuadEvents(ssaoBlur, OcclusionBlur);
      DrawLighting();
      Logged(t0, log, LightingEvents(scene, |dirLights|, pointCount));
      log := log + LightingEvents(scene, |dirLights|, pointCount);
      QuadPass(bloom, BloomSelect);
      Logged(t0, log, QuadEvents(bloom, BloomSelect));
    }

    /** Bloom blur and composite, tone mapping, FXAA and the final quad; the context is idle again. */
    method DrawPostProcess(ghost t0: seq<Event>, ghost acc: seq<Event>)
      requires gl.State() == Idle(bloom.size).(depthTest := false)
      requires gl.trace == t0 + acc
      modifies gl`bound, gl`viewport, gl`depthTest, gl`blend, gl`srgb, gl`trace
      ensures gl.State() == Idle(screen)
      ensures gl.trace == t0 + (acc + BlurEvents(bloom) + CompositeEvents(scene) + QuadEvents(toneMapping, ToneMap)
        + QuadEvents(fxaa, Antialias) + FinalEvents(screen))
    {
      ghost var log := acc;
      gl.Draw(BloomBlur);
      Logged(t0, log, BlurEvents(bloom));
      log := log + BlurEvents(bloom);
      Composite();
      Logged(t0, log, CompositeEvents(scene));
      log := log + CompositeEvents(scene);
      QuadPass(toneMapping, ToneMap);
      Logged(t0, log, QuadEvents(toneMapping, ToneMap));
      log := log + QuadEvents(toneMapping, ToneMap);
      QuadPass(fxaa, Antialias);
      Logged(t0, log, QuadEvents(fxaa, Antialias));
      log := log + QuadEvents(fxaa, Antialias);
      gl.SetSrgb(true);
      gl.SetViewport(screen);
      gl.Draw(Present);
      gl.SetSrgb(false);
      gl.SetDepthTest(true);
      Logged(t0, log, FinalEvents(screen));
    }

    /**
     * One of the frame's loops over objects or lights: item i's draw call, for every i
     * below n, in order, all under the current state.
     */
    method DrawEach(l: Loop, n: nat)
      modifies gl`trace
      ensures gl.trace == old(gl.trace) + Draws(l, n, gl.State())
      ensures gl.State() == old(gl.State())
    {
      var i := 0;
      while i < n
        invariant 0 <= i <= n
        invariant gl.State() == old(gl.State())
        invariant gl.trace == old(gl.trace) + Draws(l, i, gl.State())
      {
        gl.Draw(LoopOp(l, i));
        i := i + 1;
      }
    }

    /** The shadow pass: for each light, bind, every object's depth, blur and unbind. */
    method DrawShadows(ghost casters: seq<ShadowCaster>)
      requires LightsReady() && IdleAt(gl.State())
      requires casters == Casters(dirLights)
      modifies gl`bound, gl`viewport, gl`depthTest, gl`clearColour, gl`trace
      ensures IdleAt(gl.State())
      ensures gl.trace == old(gl.trace) + ShadowEvents(casters, objectCount)
    {
      var k := 0;
      while k < |dirLights|
        invariant 0 <= k <= |dirLights|
        invariant IdleAt(gl.State())
        invariant gl.trace == old(gl.trace) + ShadowEvents(casters[..k], objectCount)
      {
        ShadowOne(dirLights[k], casters[k]);
        assert casters[..k + 1][..k] == casters[..k];
        Logged(old(gl.trace), ShadowEvents(casters[..k], objectCount), CasterEvents(casters[k], objectCount));
        k := k + 1;
      }
      assert casters[..k] == casters;
    }

    /** One light's share of the shadow pass. */
    method ShadowOne(light: DirectionalLight, ghost c: ShadowCaster)
      requires light.Ready() && IdleAt(gl.State())
      requires c == CasterOf(light)
      modifies gl`bound, gl`viewport, gl`depthTest, gl`clearColour, gl`trace
      ensures IdleAt(gl.State())
      ensures gl.trace == old(gl.trace) + CasterEvents(c, objectCount)
    {
      ghost var t0 := gl.trace;
      light.Bind(gl);
      Logged(t0, [Event.Bind(c.shadow)], [Clear(Some(White), true)]);
      ghost var log := [Event.Bind(c.shadow)] + [Clear(Some(White), true)];
      DrawEach(DepthOf(light.mvp), objectCount);
      Logged(t0, log, Draws(DepthOf(c.mvp), objectCount, Into(c.shadow)));
      log := log + Draws(DepthOf(c.mvp), objectCount, Into(c.shadow));
      light.BlurAndUnbind(gl);
      Logged(t0, log, [Unbind(c.shadow)]);
      log := log + [Unbind(c.shadow)];
      Logged(t0, log, [Event.Bind(c.blur)]);
      log := log + [Event.Bind(c.blur)];
      Logged(t0, log, [Issue(ShadowBlur(c.shadow.texture), QuadInto(c.blur))]);
      log := log + [Issue(ShadowBlur(c.shadow.texture), QuadInto(c.blur))];
      Logged(t0, log, [Unbind(c.blur)]);
    }

    /** The G-buffer pass, ending with the background drawn under LEQUAL without depth writes. */
    method DrawGBuffer()
      requires IdleAt(gl.State())
      modifies gl`bound, gl`viewport, gl`depthMask, gl`depthFunc, gl`trace
      ensures gl.State() == Idle(gbuffer.size)
      ensures gl.trace == old(gl.trace) + GBufferEvents(gbuffer, objectCount, pointCount)
    {
      ghost var t0 := gl.trace;
      ghost var into := Into(gbuffer);
      gl.BindTarget(gbuffer);
      gl.SetViewport(gbuffer.size);
      gl.ClearBuffers(false, true);
      Logged(t0, [Event.Bind(gbuffer)], [Clear(None, true)]);
      ghost var log := [Event.Bind(gbuffer)] + [Clear(None, true)];
      DrawEach(ColourOf, objectCount);
      Logged(t0, log, Draws(ColourOf, objectCount, into));
      log := log + Draws(ColourOf, objectCount, into);
      DrawEach(DebugOf, pointCount);
      Logged(t0, log, Draws(DebugOf, pointCount, into));
      log := log + Draws(DebugOf, pointCount, into);
      gl.SetDepthMask(false);
      gl.SetDepthFunc(LessEqual);
      gl.Draw(Background);
      Logged(t0, log, [Issue(Background, into.(depthMask := false, depthFunc := LessEqual))]);
      log := log + [Issue(Background, into.(depthMask := false, depthFunc := LessEqual))];
      gl.SetDepthFunc(Less);
      gl.SetDepthMask(true);
      gl.UnbindTarget(gbuffer);
      Logged(t0, log, [Unbind(gbuffer)]);
    }

    /** A full-screen pass: bind `t`, set its viewport, draw one quad, unbind. */
    method QuadPass(t: RenderTarget, op: Op)
      requires IdleAt(gl.State().(depthTest := true)) && !gl.depthTest
      modifies gl`bound, gl`viewport, gl`trace
      ensures gl.State() == Idle(t.size).(depthTest := false)
      ensures gl.trace == old(gl.trace) + QuadEvents(t, op)
    {
      ghost var t0 := gl.trace;
      gl.BindTarget(t);
      gl.SetViewport(t.size);
      gl.Draw(op);
      Logged(t0, [Event.Bind(t)], [Issue(op, QuadInto(t))]);
      gl.UnbindTarget(t);
      Logged(t0, [Event.Bind(t)] + [Issue(op, QuadInto(t))], [Unbind(t)]);
    }

    /** Lighting: ambient, then each light added with blending; point lights cull front faces. */
    method DrawLighting()
      requires IdleAt(gl.State().(depthTest := true)) && !gl.depthTest
      modifies gl`bound, gl`viewport, gl`blend, gl`cullFace, gl`trace
      ensures gl.State() == Idle(scene.size).(depthTest := false)
      ensures gl.trace == old(gl.trace) + LightingEvents(scene, |dirLights|, pointCount)
    {
      ghost var t0 := gl.trace;
      ghost var quad := QuadInto(scene);
      gl.BindTarget(scene);
      gl.SetViewport(scene.size);
      gl.Draw(Ambient);
      Logged(t0, [Event.Bind(scene)], [Issue(Ambient, quad)]);
      ghost var log := [Event.Bind(scene)] + [Issue(Ambient, quad)];
      gl.SetBlend(true);
      DrawEach(DirectionalOf, |dirLights|);
      Logged(t0, log, Draws(DirectionalOf, |dirLights|, quad.(blend := true)));
      log := log + Draws(DirectionalOf, |dirLights|, quad.(blend := true));
      gl.SetCullFace(Front);
      DrawEach(PointOf, pointCount);
      Logged(t0, log, Draws(PointOf, pointCount, quad.(blend := true, cullFace := Front)));
      log := log + Draws(PointOf, pointCount, quad.(blend := true, cullFace := Front));
      gl.SetBlend(false);
      gl.SetCullFace(Back);
      gl.UnbindTarget(scene);
      Logged(t0, log, [Unbind(scene)]);
    }

    /** The blurred bloom drawn back into the scene target with blending. */
    method Composite()
      requires IdleAt(gl.State().(depthTest := true)) && !gl.depthTest
      modifies gl`bound, gl`viewport, gl`blend, gl`trace
      ensures gl.State() == Idle(scene.size).(depthTest := false)
      ensures gl.trace == old(gl.trace) + CompositeEvents(scene)
    {
      ghost var t0 := gl.trace;
      ghost var quad := QuadInto(scene).(blend := true);
      gl.BindTarget(scene);
      gl.SetViewport(scene.size);
      gl.SetBlend(true);
      gl.Draw(BloomAdd);
      Logged(t0, [Event.Bind(scene)], [Issue(BloomAdd, quad)]);
      gl.SetBlend(false);
      gl.UnbindTarget(scene);
      Logged(t0, [Event.Bind(scene)] + [Issue(BloomAdd, quad)], [Unbind(scene)]);
    }

    // -------------------------------------------------------------------------
    // Resizing, release, input.

    /**
     * Renderer::resize: the viewport and screen take the new window size; the G-buffer,
     * SSAO-blur, scene, tone-mapping and FXAA targets take the new render size and the
     * SSAO target half of it. The bloom target and the blur buffer keep their size.
     */
    method Resize(width: int, height: int, rs: RenderSize)
      requires Valid()
      modifies this`renderSize, this`screen, this`gbuffer, this`ssao, this`ssaoBlur, this`scene,
               this`toneMapping, this`fxaa, gl`viewport
      ensures Valid()
      ensures gl.viewport == Size(width, height) && screen == Size(width, height) && renderSize == rs
      ensures gbuffer == old(gbuffer).(size := FullExtent(rs))
      ensures ssao == old(ssao).(size := HalfExtent(rs))
      ensures ssaoBlur == old(ssaoBlur).(size := FullExtent(rs))
      ensures scene == old(scene).(size := FullExtent(rs))
      ensures toneMapping == old(toneMapping).(size := FullExtent(rs))
      ensures fxaa == old(fxaa).(size := FullExtent(rs))
    {
      gl.SetViewport(Size(width, height));
      screen := Size(width, height);
      renderSize := rs;
      gbuffer := gbuffer.(size := FullExtent(rs));
      ssao := ssao.(size := HalfExtent(rs));
      ssaoBlur := ssaoBlur.(size := FullExtent(rs));
      scene := scene.(size := FullExtent(rs));
      toneMapping := toneMapping.(size := FullExtent(rs));
      fxaa := fxaa.(size := FullExtent(rs));
    }

    /** Renderer::clean: the fifteen resources, once each, in order. */
    method Clean()
      modifies this`released
      ensures released == old(released) + ReleaseOrder
    {
      released := released + ReleaseOrder;
    }

    /** Renderer::keyPressed: the response is recorded unless the event is ignored. */
    method KeyPressed(key: int, action: int)
      modifies this`responses
      ensures responses == old(responses) + (if Respond(key, action) == Ignored then [] else [Respond(key, action)])
    {
      if action == KeyPress {
        responses := responses + [CameraKey(key, true)];
      } else if action == KeyRelease {
        if key == KeyP {
          responses := responses + [Reload];
          return;
        }
        responses := responses + [CameraKey(key, false)];
      }
    }
  }

  /**
   * The renderer's own targets, in the order the constructor creates them: the
   * G-buffer, SSAO, SSAO blur, scene, bloom, tone-mapping and FXAA targets, then the
   * blur buffer. Each gets fresh names above those handed out before.
   */
  method CreateTargets(gl: Context, rs: RenderSize) returns (t: Targets, blur: RenderTarget)
    requires rs.width > 0.0 && gl.nextName > 0
    modifies gl`nextName
    ensures t.gbuffer.size == FullExtent(rs) && t.ssao.size == HalfExtent(rs)
    ensures t.ssaoBlur.size == FullExtent(rs) && t.scene.size == FullExtent(rs)
    ensures t.bloom.size == Size(BloomSide(rs.width), BloomSide(rs.width)) && blur.size == t.bloom.size
    ensures t.toneMapping.size == FullExtent(rs) && t.fxaa.size == FullExtent(rs)
    ensures 0 < t.gbuffer.name < t.ssao.name < t.ssaoBlur.name < t.scene.name < t.bloom.name
    ensures t.bloom.name < t.toneMapping.name < t.fxaa.name < blur.name < gl.nextName
    ensures gl.State() == old(gl.State())
  {
    var full, side := FullExtent(rs), BloomSide(rs.width);
    var g := gl.CreateTarget(full);
    var o := gl.CreateTarget(HalfExtent(rs));
    var ob := gl.CreateTarget(full);
    var sc := gl.CreateTarget(full);
    var bl := gl.CreateTarget(Size(side, side));
    var tm := gl.CreateTarget(full);
    var fx := gl.CreateTarget(full);
    blur := gl.CreateTarget(Size(side, side));
    t := Targets(g, o, ob, sc, bl, tm, fx);
  }

  /**
   * Each light's init, in scene order, with the G-buffer textures: every light ends up
   * ready, with names above those handed out before.
   */
  method InitLights(gl: Context, lights: seq<DirectionalLight>, textures: map<string, nat>)
    modifies gl`nextName, lights
    ensures forall k :: 0 <= k < |lights| ==>
      && lights[k].Ready()
      && old(gl.nextName) <= lights[k].shadowPass.value.name < lights[k].blurPass.value.name
      && lights[k].inputs == textures["shadowMap" := lights[k].blurPass.value.texture]
    ensures gl.State() == old(gl.State())
  {
    var k := 0;
    while k < |lights|
      invariant 0 <= k <= |lights|
      invariant old(gl.nextName) <= gl.nextName
      invariant forall j :: 0 <= j < k ==>
        && lights[j].Ready()
        && old(gl.nextName) <= lights[j].shadowPass.value.name < lights[j].blurPass.value.name
        && lights[j].inputs == textures["shadowMap" := lights[j].blurPass.value.texture]
      invariant gl.State() == old(gl.State())
    {
      lights[k].Init(gl, textures);
      k := k + 1;
    }
  }
}
