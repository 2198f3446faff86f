/**
 * The slice of OpenGL state the deferred renderer and its lights manipulate: the bound
 * framebuffer, the viewport, the depth, blend, face-culling and sRGB switches and the
 * clear colour, together with a ghost log of what was drawn and into which target.
 *
 * Shader programs, uniforms and pixel contents are not part of this model: a draw call
 * is an `Op` naming what was drawn, recorded with a snapshot of the state it ran under.
 */
module Graphics {

  import opened Wrappers
  import opened Geometry

  /** Integer extent of a target or viewport, in pixels. */
  datatype Size = Size(width: int, height: int)

  /**
   * A framebuffer with one colour texture. `name` is its GL framebuffer name; the
   * default framebuffer has name 0 and is never a RenderTarget.
   */
  datatype RenderTarget = RenderTarget(name: nat, texture: nat, size: Size)

  const DefaultFramebuffer: nat := 0

  datatype DepthFunc = Less | LessEqual

  datatype Face = Front | Back

  datatype Colour = Colour(r: real, g: real, b: real, a: real)

  const White: Colour := Colour(1.0, 1.0, 1.0, 0.0)

  /** A snapshot of the switches a draw call runs under. */
  datatype GLState = GLState(
    bound: nat,
    viewport: Size,
    depthTest: bool,
    depthMask: bool,
    depthFunc: DepthFunc,
    blend: bool,
    cullFace: Face,
    srgb: bool)

  /** The state the renderer keeps between frames: depth on, writes on, LESS, no blending, back faces culled, linear output. */
  function Idle(viewport: Size): GLState
  {
    GLState(DefaultFramebuffer, viewport, true, true, Less, false, Back, false)
  }

  /** What a draw call drew (the program and geometry it used). */
  datatype Op =
    | ObjectDepth(object: nat, mvp: Mat4)      // Object::drawDepth into a shadow map
    | ShadowBlur(source: nat)                  // a light's blur screen, reading its shadow texture
    | ObjectColour(object: nat)                // Object::draw into the G-buffer
    | LightDebug(light: nat)                   // PointLight::drawDebug
    | Background                               // the skybox
    | AmbientOcclusion                         // AmbientQuad::drawSSAO
    | OcclusionBlur                            // the SSAO blur screen
    | Ambient                                  // AmbientQuad::draw
    | DirectionalShading(light: nat)           // DirectionalLight::draw
    | PointShading(light: nat)                 // PointLight::draw
    | BloomSelect                              // the bloom screen
    | BloomBlur                                // Blur::process
    | BloomAdd                                 // Blur::draw, composited over the scene
    | ToneMap                                  // the tone-mapping screen
    | Antialias                                // the FXAA screen
    | Present                                  // the final screen quad

  /** One entry of the frame log. A clear records the colour only when it clears colour. */
  datatype Event =
    | Bind(target: RenderTarget)
    | Unbind(target: RenderTarget)
    | Clear(colour: Option<Colour>, depth: bool)
    | Issue(op: Op, state: GLState)

  /** Appending to a log in two steps is appending the two parts at once. */
  lemma Logged<T>(start: seq<T>, log: seq<T>, more: seq<T>)
    ensures start + log + more == start + (log + more)
  {
  }

  /** The GL context as the renderer sees it. */
  class Context {
    var bound: nat
    var viewport: Size
    var depthTest: bool
    var depthMask: bool
    var depthFunc: DepthFunc
    var blend: bool
    var culling: bool
    var cullFace: Face
    var srgb: bool
    var clearColour: Colour
    /** Next unused GL name, handed out by CreateTarget. */
    var nextName: nat
    /** Binds, unbinds, clears and draw calls, oldest first. */
    ghost var trace: seq<Event>

    function State(): GLState
      reads this
    {
      GLState(bound, viewport, depthTest, depthMask, depthFunc, blend, cullFace, srgb)
    }

    /** A fresh context with OpenGL's initial state and the window-sized viewport. */
    constructor (window: Size)
      ensures State() == GLState(DefaultFramebuffer, window, false, true, Less, false, Back, false)
      ensures !culling && clearColour == Colour(0.0, 0.0, 0.0, 0.0)
      ensures nextName == 1 && trace == []
    {
      bound := DefaultFramebuffer;
      viewport := window;
      depthTest := false;
      depthMask := true;
      depthFunc := Less;
      blend := false;
      culling := false;
      cullFace := Back;
      srgb := false;
      clearColour := Colour(0.0, 0.0, 0.0, 0.0);
      nextName := 1;
      trace := [];
    }

    /** Generates a framebuffer and its texture; the names are new and non-zero. */
    method CreateTarget(size: Size) returns (t: RenderTarget)
      modifies this`nextName
      ensures t == RenderTarget(old(nextName), old(nextName) + 1, size)
      ensures nextName == old(nextName) + 2 && State() == old(State())
    {
      t := RenderTarget(nextName, nextName + 1, size);
      nextName := nextName + 2;
    }

    method BindTarget(t: RenderTarget)
      modifies this`bound, this`trace
      ensures State() == old(State()).(bound := t.name) && trace == old(trace) + [Bind(t)]
    {
      bound := t.name;
      trace := trace + [Bind(t)];
    }

    /** Framebuffer::unbind: the default framebuffer is bound again. */
    method UnbindTarget(t: RenderTarget)
      modifies this`bound, this`trace
      ensures State() == old(State()).(bound := DefaultFramebuffer) && trace == old(trace) + [Unbind(t)]
    {
      bound := DefaultFramebuffer;
      trace := trace + [Unbind(t)];
    }

    method SetViewport(s: Size)
      modifies this`viewport
      ensures State() == old(State()).(viewport := s)
    {
      viewport := s;
    }

    method SetDepthTest(on: bool)
      modifies this`depthTest
      ensures State() == old(State()).(depthTest := on)
    {
      depthTest := on;
    }

    method SetDepthMask(on: bool)
      modifies this`depthMask
      ensures State() == old(State()).(depthMask := on)
    {
      depthMask := on;
    }

    method SetDepthFunc(f: DepthFunc)
      modifies this`depthFunc
      ensures State() == old(State()).(depthFunc := f)
    {
      depthFunc := f;
    }

    method SetBlend(on: bool)
      modifies this`blend
      ensures State() == old(State()).(blend := on)
    {
      blend := on;
    }

    method SetCulling(on: bool)
      modifies this`culling
      ensures culling == on && State() == old(State())
    {
      culling := on;
    }

    method SetCullFace(f: Face)
      modifies this`cullFace
      ensures State() == old(State()).(cullFace := f)
    {
      cullFace := f;
    }

    method SetSrgb(on: bool)
      modifies this`srgb
      ensures State() == old(State()).(srgb := on)
    {
      srgb := on;
    }

    method SetClearColour(c: Colour)
      modifies this`clearColour
      ensures clearColour == c && State() == old(State())
    {
      clearColour := c;
    }

    /** glClear: the colour buffer is cleared to the current clear colour. */
    method ClearBuffers(colour: bool, depth: bool)
      modifies this`trace
      ensures trace == old(trace) + [Clear(if colour then Some(clearColour) else None, depth)]
      ensures State() == old(State())
    {
      trace := trace + [Clear(if colour then Some(clearColour) else None, depth)];
    }

    /** A draw call, logged with the state it runs under. */
    method Draw(op: Op)
      modifies this`trace
      ensures trace == old(trace) + [Issue(op, State())]
      ensures State() == old(State())
    {
      trace := trace + [Issue(op, State())];
    }
  }
}
