/**
 * What one frame of the deferred renderer (src/Renderer.cpp, Renderer::draw) does to
 * the GL context, as a log of events grouped in passes, and the properties of that log:
 * every target is bound, drawn into and unbound before the next one is bound; the
 * passes come in a fixed order; each draw call runs under the blend, cull, sRGB and
 * depth settings its pass calls for.
 */
module FrameSpec {

  import opened Wrappers
  import opened Geometry
  import opened Graphics

  /** The passes of a frame, in the order they run. */
  datatype Pass =
    | ShadowPass | GBufferPass | SsaoPass | SsaoBlurPass | LightingPass
    | BloomPass | BlurPass | CompositePass | ToneMapPass | FxaaPass | FinalPass

  function Rank(p: Pass): nat
  {
    match p
    case ShadowPass => 0
    case GBufferPass => 1
    case SsaoPass => 2
    case SsaoBlurPass => 3
    case LightingPass => 4
    case BloomPass => 5
    case BlurPass => 6
    case CompositePass => 7
    case ToneMapPass => 8
    case FxaaPass => 9
    case FinalPass => 10
  }

  /** The pass each kind of draw call belongs to. */
  function PassOf(op: Op): Pass
  {
    match op
    case ObjectDepth(_, _) => ShadowPass
    case ShadowBlur(_) => ShadowPass
    case ObjectColour(_) => GBufferPass
    case LightDebug(_) => GBufferPass
    case Background => GBufferPass
    case AmbientOcclusion => SsaoPass
    case OcclusionBlur => SsaoBlurPass
    case Ambient => LightingPass
    case DirectionalShading(_) => LightingPass
    case PointShading(_) => LightingPass
    case BloomSelect => BloomPass
    case BloomBlur => BlurPass
    case BloomAdd => CompositePass
    case ToneMap => ToneMapPass
    case Antialias => FxaaPass
    case Present => FinalPass
  }

  /** What a directional light contributes to the shadow pass. */
  datatype ShadowCaster = ShadowCaster(shadow: RenderTarget, blur: RenderTarget, mvp: Mat4)

  /** The renderer's own targets. */
  datatype Targets = Targets(
    gbuffer: RenderTarget,
    ssao: RenderTarget,
    ssaoBlur: RenderTarget,
    scene: RenderTarget,
    bloom: RenderTarget,
    toneMapping: RenderTarget,
    fxaa: RenderTarget)

  /** Drawing geometry into `t`: the idle switches with `t` bound and sized. */
  function Into(t: RenderTarget): GLState
  {
    Idle(t.size).(bound := t.name)
  }

  /** Drawing a full-screen quad into `t`: as `Into`, with depth testing off. */
  function QuadInto(t: RenderTarget): GLState
  {
    Into(t).(depthTest := false)
  }

  // ---------------------------------------------------------------------------
  // The events of each pass, starting from the idle state.

  /** The per-index draw calls of a loop: over objects, or over lights. */
  datatype Loop = DepthOf(mvp: Mat4) | ColourOf | DebugOf | DirectionalOf | PointOf

  function LoopOp(l: Loop, i: nat): Op
  {
    match l
    case DepthOf(mvp) => ObjectDepth(i, mvp)
    case ColourOf => ObjectColour(i)
    case DebugOf => LightDebug(i)
    case DirectionalOf => DirectionalShading(i)
    case PointOf => PointShading(i)
  }

  /** The draw calls of a loop over n items, in item order, all under state `st`. */
  function Draws(l: Loop, n: nat, st: GLState): (r: seq<Event>)
    ensures |r| == n
    ensures forall i :: 0 <= i < n ==> r[i] == Issue(LoopOp(l, i), st)
  {
    if n == 0 then [] else Draws(l, n - 1, st) + [Issue(LoopOp(l, n - 1), st)]
  }

  /** One light: bind and clear its shadow map, draw every object's depth, blur, unbind. */
  function CasterEvents(c: ShadowCaster, objects: nat): seq<Event>
  {
    [Event.Bind(c.shadow)] + [Clear(Some(White), true)]
      + Draws(DepthOf(c.mvp), objects, Into(c.shadow))
      + [Unbind(c.shadow)] + [Event.Bind(c.blur)]
      + [Issue(ShadowBlur(c.shadow.texture), QuadInto(c.blur))] + [Unbind(c.blur)]
  }

  function ShadowEvents(casters: seq<ShadowCaster>, objects: nat): seq<Event>
  {
    if casters == [] then []
    else ShadowEvents(casters[..|casters| - 1], objects) + CasterEvents(casters[|casters| - 1], objects)
  }

  /** The G-buffer: depth cleared, objects, light markers, then the background with depth writes off and LEQUAL. */
  function GBufferEvents(g: RenderTarget, objects: nat, points: nat): seq<Event>
  {
    [Event.Bind(g)] + [Clear(None, true)]
      + Draws(ColourOf, objects, Into(g))
      + Draws(DebugOf, points, Into(g))
      + [Issue(Background, Into(g).(depthMask := false, depthFunc := LessEqual))] + [Unbind(g)]
  }

  /** A full-screen pass drawing one quad into `t`. */
  function QuadEvents(t: RenderTarget, op: Op): seq<Event>
  {
    [Event.Bind(t)] + [Issue(op, QuadInto(t))] + [Unbind(t)]
  }

  /** The ambient term, then every directional and every point light added with blending; point lights cull front faces. */
  function LightingEvents(scene: RenderTarget, dirs: nat, points: nat): seq<Event>
  {
    [Event.Bind(scene)] + [Issue(Ambient, QuadInto(scene))]
      + Draws(DirectionalOf, dirs, QuadInto(scene).(blend := true))
      + Draws(PointOf, points, QuadInto(scene).(blend := true, cullFace := Front))
      + [Unbind(scene)]
  }

  /** Blur::process, with no target of the renderer bound and the bloom viewport still set. */
  function BlurEvents(bloom: RenderTarget): seq<Event>
  {
    [Issue(BloomBlur, Idle(bloom.size).(depthTest := false))]
  }

  /** The blurred bloom added back over the scene with blending. */
  function CompositeEvents(scene: RenderTarget): seq<Event>
  {
    [Event.Bind(scene)] + [Issue(BloomAdd, QuadInto(scene).(blend := true))] + [Unbind(scene)]
  }

  /** The final quad, into the default framebuffer, in sRGB, at screen size. */
  function FinalEvents(screen: Size): seq<Event>
  {
    [Issue(Present, Idle(screen).(depthTest := false, srgb := true))]
  }

  /** Everything one frame logs, from an idle context. */
  function FrameEvents(casters: seq<ShadowCaster>, objects: nat, points: nat, t: Targets, screen: Size): seq<Event>
  {
    ShadowEvents(casters, objects)
      + GBufferEvents(t.gbuffer, objects, points)
      + QuadEvents(t.ssao, AmbientOcclusion)
      + QuadEvents(t.ssaoBlur, OcclusionBlur)
      + LightingEvents(t.scene, |casters|, points)
      + QuadEvents(t.bloom, BloomSelect)
      + BlurEvents(t.bloom)
      + CompositeEvents(t.scene)
      + QuadEvents(t.toneMapping, ToneMap)
      + QuadEvents(t.fxaa, Antialias)
      + FinalEvents(screen)
  }

  // ---------------------------------------------------------------------------
  // Bracketing.

  /** Where a walk through the log stands: nothing bound, one target bound, or a protocol error. */
  datatype Bracket = Closed | Open(target: RenderTarget) | Broken

  /**
   * One event of the bind/unbind protocol: a bind only when nothing is bound, an unbind
   * only of the bound target, a clear only into a bound target, and a draw call only
   * into what is bound, with the viewport of the bound target.
   */
  function Step(b: Bracket, e: Event): Bracket
  {
    match e
    case Bind(t) => if b == Closed then Open(t) else Broken
    case Unbind(t) => if b == Open(t) then Closed else Broken
    case Clear(_, _) => if b.Open? then b else Broken
    case Issue(_, st) =>
      match b
      case Closed => if st.bound == DefaultFramebuffer then b else Broken
      case Open(t) => if st.bound == t.name && st.viewport == t.size then b else Broken
      case Broken => Broken
  }

  function Walk(b: Bracket, es: seq<Event>): Bracket
    decreases |es|
  {
    if es == [] then b else Walk(Step(b, es[0]), es[1..])
  }

  /** The log keeps the protocol and ends with nothing bound. */
  predicate Bracketed(es: seq<Event>)
  {
    Walk(Closed, es) == Closed
  }

  lemma {:induction false} WalkConcat(b: Bracket, x: seq<Event>, y: seq<Event>)
    ensures Walk(b, x + y) == Walk(Walk(b, x), y)
    decreases |x|
  {
    if x == [] {
      assert x + y == y;
    } else {
      assert (x + y)[1..] == x[1..] + y;
      WalkConcat(Step(b, x[0]), x[1..], y);
    }
  }

  /** Walking a one-event log is one step. */
  lemma WalkOne(b: Bracket, e: Event)
    ensures Walk(b, [e]) == Step(b, e)
  {
    assert [e][1..] == [];
  }

  /** Walking a log is walking its head, then its tail. */
  lemma WalkCons(b: Bracket, e: Event, rest: seq<Event>)
    ensures Walk(b, [e] + rest) == Walk(Step(b, e), rest)
  {
    assert ([e] + rest)[1..] == rest;
  }

  /** Draw calls into the bound target, at its viewport, leave the walk where it was. */
  lemma {:induction false} WalkDraws(t: RenderTarget, es: seq<Event>)
    requires forall i :: 0 <= i < |es| ==> es[i].Issue? && es[i].state.bound == t.name && es[i].state.viewport == t.size
    ensures Walk(Open(t), es) == Open(t)
    decreases |es|
  {
    if es != [] {
      WalkDraws(t, es[1..]);
    }
  }

  /** Bind, draw calls into the bound target, unbind. */
  lemma TargetBracketed(t: RenderTarget, head: seq<Event>, draws: seq<Event>)
    requires head == [] || head == [Clear(Some(White), true)] || head == [Clear(None, true)]
    requires forall i :: 0 <= i < |draws| ==> draws[i].Issue? && draws[i].state.bound == t.name && draws[i].state.viewport == t.size
    ensures Bracketed([Event.Bind(t)] + head + draws + [Unbind(t)])
  {
    assert [Event.Bind(t)] + head + draws + [Unbind(t)] == [Event.Bind(t)] + (head + (draws + [Unbind(t)]));
    WalkCons(Closed, Event.Bind(t), head + (draws + [Unbind(t)]));
    WalkConcat(Open(t), head, draws + [Unbind(t)]);
    if head != [] {
      WalkOne(Open(t), head[0]);
    }
    WalkConcat(Open(t), draws, [Unbind(t)]);
    WalkDraws(t, draws);
    WalkOne(Open(t), Unbind(t));
  }

  /** A draw call into the default framebuffer, outside any target. */
  lemma Unbracketed(op: Op, st: GLState)
    requires st.bound == DefaultFramebuffer
    ensures Bracketed([Issue(op, st)])
  {
    WalkOne(Closed, Issue(op, st));
  }

  lemma {:induction false} ShadowBracketed(casters: seq<ShadowCaster>, objects: nat)
    ensures Bracketed(ShadowEvents(casters, objects))
  {
    if casters != [] {
      var c := casters[|casters| - 1];
      ShadowBracketed(casters[..|casters| - 1], objects);
      var depth := [Event.Bind(c.shadow)] + [Clear(Some(White), true)] + Draws(DepthOf(c.mvp), objects, Into(c.shadow)) + [Unbind(c.shadow)];
      var blur := [Event.Bind(c.blur)] + [] + [Issue(ShadowBlur(c.shadow.texture), QuadInto(c.blur))] + [Unbind(c.blur)];
      TargetBracketed(c.shadow, [Clear(Some(White), true)], Draws(DepthOf(c.mvp), objects, Into(c.shadow)));
      TargetBracketed(c.blur, [], [Issue(ShadowBlur(c.shadow.texture), QuadInto(c.blur))]);
      assert CasterEvents(c, objects) == depth + blur;
      WalkConcat(Closed, depth, blur);
      WalkConcat(Closed, ShadowEvents(casters[..|casters| - 1], objects), CasterEvents(c, objects));
    }
  }

  lemma GBufferBracketed(g: RenderTarget, objects: nat, points: nat)
    ensures Bracketed(GBufferEvents(g, objects, points))
  {
    var draws := Draws(ColourOf, objects, Into(g)) + Draws(DebugOf, points, Into(g))
      + [Issue(Background, Into(g).(depthMask := false, depthFunc := LessEqual))];
    TargetBracketed(g, [Clear(None, true)], draws);
    assert GBufferEvents(g, objects, points) == [Event.Bind(g)] + [Clear(None, true)] + draws + [Unbind(g)];
  }

  lemma LightingBracketed(scene: RenderTarget, dirs: nat, points: nat)
    ensures Bracketed(LightingEvents(scene, dirs, points))
  {
    var draws := [Issue(Ambient, QuadInto(scene))]
      + Draws(DirectionalOf, dirs, QuadInto(scene).(blend := true))
      + Draws(PointOf, points, QuadInto(scene).(blend := true, cullFace := Front));
    TargetBracketed(scene, [], draws);
    assert LightingEvents(scene, dirs, points) == [Event.Bind(scene)] + [] + draws + [Unbind(scene)];
  }

  /** Each full-screen pass binds its target, draws one quad into it and unbinds it. */
  lemma QuadBracketed(t: RenderTarget, op: Op)
    ensures Bracketed(QuadEvents(t, op))
  {
    TargetBracketed(t, [], [Issue(op, QuadInto(t))]);
    assert QuadEvents(t, op) == [Event.Bind(t)] + [] + [Issue(op, QuadInto(t))] + [Unbind(t)];
  }

  /** Two logs that each start and end with nothing bound make one that does too. */
  lemma BracketedConcat(a: seq<Event>, b: seq<Event>)
    requires Bracketed(a) && Bracketed(b)
    ensures Bracketed(a + b)
  {
    WalkConcat(Closed, a, b);
  }

  /**
   * Every bind in a frame is matched by the unbind of the same target before the next
   * bind, clears and draws go only into the bound target at its own viewport, draws
   * outside any target go to the default framebuffer, and nothing is left bound.
   */
  lemma FrameBracketed(casters: seq<ShadowCaster>, objects: nat, points: nat, t: Targets, screen: Size)
    ensures Bracketed(FrameEvents(casters, objects, points, t, screen))
  {
    var log := ShadowEvents(casters, objects);
    ShadowBracketed(casters, objects);
    GBufferBracketed(t.gbuffer, objects, points);
    BracketedConcat(log, GBufferEvents(t.gbuffer, objects, points));
    log := log + GBufferEvents(t.gbuffer, objects, points);
    QuadBracketed(t.ssao, AmbientOcclusion);
    BracketedConcat(log, QuadEvents(t.ssao, AmbientOcclusion));
    log := log + QuadEvents(t.ssao, AmbientOcclusion);
    QuadBracketed(t.ssaoBlur, OcclusionBlur);
    BracketedConcat(log, QuadEvents(t.ssaoBlur, OcclusionBlur));
    log := log + QuadEvents(t.ssaoBlur, OcclusionBlur);
    LightingBracketed(t.scene, |casters|, points);
    BracketedConcat(log, LightingEvents(t.scene, |casters|, points));
    log := log + LightingEvents(t.scene, |casters|, points);
    QuadBracketed(t.bloom, BloomSelect);
    BracketedConcat(log, QuadEvents(t.bloom, BloomSelect));
    log := log + QuadEvents(t.bloom, BloomSelect);
    Unbracketed(BloomBlur, Idle(t.bloom.size).(depthTest := false));
    BracketedConcat(log, BlurEvents(t.bloom));
    log := log + BlurEvents(t.bloom);
    TargetBracketed(t.scene, [], [Issue(BloomAdd, QuadInto(t.scene).(blend := true))]);
    assert CompositeEvents(t.scene) == [Event.Bind(t.scene)] + [] + [Issue(BloomAdd, QuadInto(t.scene).(blend := true))] + [Unbind(t.scene)];
    BracketedConcat(log, CompositeEvents(t.scene));
    log := log + CompositeEvents(t.scene);
    QuadBracketed(t.toneMapping, ToneMap);
    BracketedConcat(log, QuadEvents(t.toneMapping, ToneMap));
    log := log + QuadEvents(t.toneMapping, ToneMap);
    QuadBracketed(t.fxaa, Antialias);
    BracketedConcat(log, QuadEvents(t.fxaa, Antialias));
    log := log + QuadEvents(t.fxaa, Antialias);
    Unbracketed(Present, Idle(screen).(depthTest := false, srgb := true));
    BracketedConcat(log, FinalEvents(screen));
  }

  // ---------------------------------------------------------------------------
  // Pass order.

  /** Every draw call in `es` belongs to pass `p`. */
  predicate InPass(es: seq<Event>, p: Pass)
  {
    forall i :: 0 <= i < |es| && es[i].Issue? ==> PassOf(es[i].op) == p
  }

  /** The rank of the pass that draw call `es[i]` belongs to. */
  function RankAt(es: seq<Event>, i: int): nat
    requires 0 <= i < |es| && es[i].Issue?
  {
    Rank(PassOf(es[i].op))
  }

  /** No draw call in `es` belongs to a pass later than rank `r`. */
  predicate NotAfter(es: seq<Event>, r: nat)
  {
    forall i {:trigger RankAt(es, i)} :: 0 <= i < |es| && es[i].Issue? ==> RankAt(es, i) <= r
  }

  /** Draw calls appear grouped by pass, in the order of the passes. */
  predicate Ordered(es: seq<Event>)
  {
    forall i, j {:trigger RankAt(es, i), RankAt(es, j)} :: 0 <= i < j < |es| && es[i].Issue? && es[j].Issue? ==>
      RankAt(es, i) <= RankAt(es, j)
  }

  /** A log ordered up to pass rank `r`, followed by the log of a pass ranked `r` or later, is ordered. */
  lemma ThenPass(a: seq<Event>, b: seq<Event>, r: nat, p: Pass)
    requires Ordered(a) && NotAfter(a, r)
    requires InPass(b, p) && r <= Rank(p)
    ensures Ordered(a + b) && NotAfter(a + b, Rank(p))
  {
    forall i, j | 0 <= i < j < |a + b| && (a + b)[i].Issue? && (a + b)[j].Issue?
      ensures RankAt(a + b, i) <= RankAt(a + b, j)
    {
      if j < |a| {
        assert RankAt(a + b, i) == RankAt(a, i) && RankAt(a + b, j) == RankAt(a, j);
      } else if i < |a| {
        assert RankAt(a + b, i) == RankAt(a, i);
        assert (a + b)[j] == b[j - |a|];
      } else {
        assert (a + b)[i] == b[i - |a|] && (a + b)[j] == b[j - |a|];
      }
    }
    forall i | 0 <= i < |a + b| && (a + b)[i].Issue?
      ensures RankAt(a + b, i) <= Rank(p)
    {
      if i < |a| {
        assert RankAt(a + b, i) == RankAt(a, i);
      } else {
        assert (a + b)[i] == b[i - |a|];
      }
    }
  }

  lemma {:induction false} ShadowInPass(casters: seq<ShadowCaster>, objects: nat)
    ensures InPass(ShadowEvents(casters, objects), ShadowPass)
  {
    if casters != [] {
      ShadowInPass(casters[..|casters| - 1], objects);
    }
  }

  lemma GBufferInPass(g: RenderTarget, objects: nat, points: nat)
    ensures InPass(GBufferEvents(g, objects, points), GBufferPass)
  {
  }

  lemma LightingInPass(scene: RenderTarget, dirs: nat, points: nat)
    ensures InPass(LightingEvents(scene, dirs, points), LightingPass)
  {
  }

  /** A full-screen pass draws only the quad of its own pass. */
  lemma QuadInPass(t: RenderTarget, op: Op)
    ensures InPass(QuadEvents(t, op), PassOf(op))
  {
    assert QuadEvents(t, op)[1] == Issue(op, QuadInto(t));
  }

  /**
   * Draw calls run pass by pass: shadows, G-buffer, SSAO, SSAO blur, lighting, bloom
   * extraction, bloom blur, bloom composite, tone mapping, FXAA, final.
   */
  lemma FrameOrdered(casters: seq<ShadowCaster>, objects: nat, points: nat, t: Targets, screen: Size)
    ensures Ordered(FrameEvents(casters, objects, points, t, screen))
  {
    var log := ShadowEvents(casters, objects);
    ShadowInPass(casters, objects);
    assert Ordered(log) && NotAfter(log, 0);
    GBufferInPass(t.gbuffer, objects, points);
    ThenPass(log, GBufferEvents(t.gbuffer, objects, points), 0, GBufferPass);
    log := log + GBufferEvents(t.gbuffer, objects, points);
    ScreenPassesOrdered(log, t, |casters|, points);
    log := log + QuadEvents(t.ssao, AmbientOcclusion) + QuadEvents(t.ssaoBlur, OcclusionBlur)
      + LightingEvents(t.scene, |casters|, points) + QuadEvents(t.bloom, BloomSelect);
    PostProcessOrdered(log, t, screen);
  }

  /** SSAO, its blur, lighting and bloom selection, in that order, after the passes up to the G-buffer. */
  lemma ScreenPassesOrdered(log: seq<Event>, t: Targets, dirs: nat, points: nat)
    requires Ordered(log) && NotAfter(log, Rank(GBufferPass))
    ensures Ordered(log + QuadEvents(t.ssao, AmbientOcclusion) + QuadEvents(t.ssaoBlur, OcclusionBlur)
      + LightingEvents(t.scene, dirs, points) + QuadEvents(t.bloom, BloomSelect))
    ensures NotAfter(log + QuadEvents(t.ssao, AmbientOcclusion) + QuadEvents(t.ssaoBlur, OcclusionBlur)
      + LightingEvents(t.scene, dirs, points) + QuadEvents(t.bloom, BloomSelect), Rank(BloomPass))
  {
    var acc := log;
    QuadInPass(t.ssao, AmbientOcclusion);
    ThenPass(acc, QuadEvents(t.ssao, AmbientOcclusion), 1, SsaoPass);
    acc := acc + QuadEvents(t.ssao, AmbientOcclusion);
    QuadInPass(t.ssaoBlur, OcclusionBlur);
    ThenPass(acc, QuadEvents(t.ssaoBlur, OcclusionBlur), 2, SsaoBlurPass);
    acc := acc + QuadEvents(t.ssaoBlur, OcclusionBlur);
    LightingInPass(t.scene, dirs, points);
    ThenPass(acc, LightingEvents(t.scene, dirs, points), 3, LightingPass);
    acc := acc + LightingEvents(t.scene, dirs, points);
    QuadInPass(t.bloom, BloomSelect);
    ThenPass(acc, QuadEvents(t.bloom, BloomSelect), 4, BloomPass);
  }

  /** The bloom blur, the composite and the final quad each draw in their own pass. */
  lemma PostInPass(t: Targets, screen: Size)
    ensures InPass(BlurEvents(t.bloom), BlurPass)
    ensures InPass(CompositeEvents(t.scene), CompositePass)
    ensures InPass(FinalEvents(screen), FinalPass)
  {
  }

  /** Bloom blur and composite, tone mapping, FXAA and the final quad, after the passes up to bloom selection. */
  lemma PostProcessOrdered(log: seq<Event>, t: Targets, screen: Size)
    requires Ordered(log) && NotAfter(log, Rank(BloomPass))
    ensures Ordered(log + BlurEvents(t.bloom) + CompositeEvents(t.scene) + QuadEvents(t.toneMapping, ToneMap)
      + QuadEvents(t.fxaa, Antialias) + FinalEvents(screen))
  {
    var acc := log;
    PostInPass(t, screen);
    ThenPass(acc, BlurEvents(t.bloom), 5, BlurPass);
    acc := acc + BlurEvents(t.bloom);
    ThenPass(acc, CompositeEvents(t.scene), 6, CompositePass);
    acc := acc + CompositeEvents(t.scene);
    QuadInPass(t.toneMapping, ToneMap);
    ThenPass(acc, QuadEvents(t.toneMapping, ToneMap), 7, ToneMapPass);
    acc := acc + QuadEvents(t.toneMapping, ToneMap);
    QuadInPass(t.fxaa, Antialias);
    ThenPass(acc, QuadEvents(t.fxaa, Antialias), 8, FxaaPass);
    acc := acc + QuadEvents(t.fxaa, Antialias);
    ThenPass(acc, FinalEvents(screen), 9, FinalPass);
  }

  /** The shadow pass draws nothing, and binds nothing, exactly when no light is given. */
  lemma {:induction false} ShadowsOnlyWithCasters(casters: seq<ShadowCaster>, objects: nat)
    ensures ShadowEvents(casters, objects) == [] <==> casters == []
  {
    if casters != [] {
      assert CasterEvents(casters[|casters| - 1], objects)[0].Bind?;
    }
  }

  // ---------------------------------------------------------------------------
  // The state each draw call runs under.

  predicate Blended(op: Op)
  {
    op.DirectionalShading? || op.PointShading? || op == BloomAdd
  }

  predicate DepthTested(op: Op)
  {
    op.ObjectDepth? || op.ObjectColour? || op.LightDebug? || op == Background
  }

  /**
   * The settings a draw call must run under: blending exactly for light accumulation
   * and the bloom composite; front-face culling exactly for point lights; sRGB exactly
   * for the final quad; depth testing exactly for geometry; depth writes off and LEQUAL
   * exactly for the background.
   */
  predicate Obeys(op: Op, st: GLState)
  {
    && (st.blend <==> Blended(op))
    && (st.cullFace == Front <==> op.PointShading?)
    && (st.srgb <==> op == Present)
    && (st.depthTest <==> DepthTested(op))
    && (!st.depthMask <==> op == Background)
    && (st.depthFunc == LessEqual <==> op == Background)
  }

  predicate AllObey(es: seq<Event>)
  {
    forall i :: 0 <= i < |es| && es[i].Issue? ==> Obeys(es[i].op, es[i].state)
  }

  lemma {:induction false} ShadowObeys(casters: seq<ShadowCaster>, objects: nat)
    ensures AllObey(ShadowEvents(casters, objects))
  {
    if casters != [] {
      ShadowObeys(casters[..|casters| - 1], objects);
    }
  }

  lemma ObeysConcat(a: seq<Event>, b: seq<Event>)
    requires AllObey(a) && AllObey(b)
    ensures AllObey(a + b)
  {
    forall i | 0 <= i < |a + b| && (a + b)[i].Issue?
      ensures Obeys((a + b)[i].op, (a + b)[i].state)
    {
      if i < |a| {
        assert (a + b)[i] == a[i];
      } else {
        assert (a + b)[i] == b[i - |a|];
      }
    }
  }

  lemma GBufferObeys(g: RenderTarget, objects: nat, points: nat)
    ensures AllObey(GBufferEvents(g, objects, points))
  {
  }

  lemma LightingObeys(scene: RenderTarget, dirs: nat, points: nat)
    ensures AllObey(LightingEvents(scene, dirs, points))
  {
  }

  /** The one quad of a full-screen pass runs under the settings its kind calls for. */
  lemma QuadObeys(t: RenderTarget, op: Op)
    requires Obeys(op, QuadInto(t))
    ensures AllObey(QuadEvents(t, op))
  {
    assert QuadEvents(t, op)[1] == Issue(op, QuadInto(t));
  }

  /** Every draw call of a frame runs under the settings its kind calls for. */
  lemma FrameObeys(casters: seq<ShadowCaster>, objects: nat, points: nat, t: Targets, screen: Size)
    ensures AllObey(FrameEvents(casters, objects, points, t, screen))
  {
    var log := ShadowEvents(casters, objects);
    ShadowObeys(casters, objects);
    GBufferObeys(t.gbuffer, objects, points);
    ObeysConcat(log, GBufferEvents(t.gbuffer, objects, points));
    log := log + GBufferEvents(t.gbuffer, objects, points);
    QuadObeys(t.ssao, AmbientOcclusion);
    ObeysConcat(log, QuadEvents(t.ssao, AmbientOcclusion));
    log := log + QuadEvents(t.ssao, AmbientOcclusion);
    QuadObeys(t.ssaoBlur, OcclusionBlur);
    ObeysConcat(log, QuadEvents(t.ssaoBlur, OcclusionBlur));
    log := log + QuadEvents(t.ssaoBlur, OcclusionBlur);
    LightingObeys(t.scene, |casters|, points);
    ObeysConcat(log, LightingEvents(t.scene, |casters|, points));
    log := log + LightingEvents(t.scene, |casters|, points);
    QuadObeys(t.bloom, BloomSelect);
    ObeysConcat(log, QuadEvents(t.bloom, BloomSelect));
    log := log + QuadEvents(t.bloom, BloomSelect);
    assert AllObey(BlurEvents(t.bloom));
    ObeysConcat(log, BlurEvents(t.bloom));
    log := log + BlurEvents(t.bloom);
    assert AllObey(CompositeEvents(t.scene));
    ObeysConcat(log, CompositeEvents(t.scene));
    log := log + CompositeEvents(t.scene);
    QuadObeys(t.toneMapping, ToneMap);
    ObeysConcat(log, QuadEvents(t.toneMapping, ToneMap));
    log := log + QuadEvents(t.toneMapping, ToneMap);
    QuadObeys(t.fxaa, Antialias);
    ObeysConcat(log, QuadEvents(t.fxaa, Antialias));
    log := log + QuadEvents(t.fxaa, Antialias);
    assert AllObey(FinalEvents(screen));
    ObeysConcat(log, FinalEvents(screen));
  }
}
