/**
 * Variance shadow-map arrays (src/engine/renderers/shadowmaps/VarianceShadowMapArray.cpp).
 *
 * The 2D array holds one layer per light; the cube array holds one cube, six layers,
 * per point light. Each constructor registers light `lid` with slot `lid` of the
 * shared texture. Each `draw` sets the global depth, blend and cull state and the
 * viewport, then renders every shadow-casting light's layers: it binds the layer,
 * clears it, and draws every shadow-casting object the light's frustum intersects.
 * Finally it blurs the whole array, once.
 *
 * A draw returns the GL calls it issues, in order, as a list of `Call`s. Shader
 * programs and uniforms other than the mvp matrix are not part of the model. The
 * frustum test is the `visible` parameter: Frustum::intersects is not interpreted.
 */
module ShadowMaps {

  import opened Wrappers
  import opened Geometry
  import GL = Graphics
  import Scene = SceneObjects

  // ---------------------------------------------------------------------------
  // The calls a draw issues.

  /** Colour (1, 1, 1, 1), the clear colour of every shadow layer. */
  const OpaqueWhite: GL.Colour := GL.Colour(1.0, 1.0, 1.0, 1.0)

  datatype Call =
    | DepthState(test: bool, func: GL.DepthFunc, write: bool)  // GLUtilities::setDepthState
    | BlendState(on: bool)                                      // GLUtilities::setBlendState
    | CullState(on: bool, face: GL.Face)                        // GLUtilities::setCullState
    | Viewport(width: nat, height: nat)                         // Framebuffer::setViewport
    | BindLayer(layer: nat)                                     // Framebuffer::bind(layer)
    | ClearColorAndDepth(colour: GL.Colour, depth: real)        // GLUtilities::clearColorAndDepth
    | BindTexture(texture: Scene.TextureInfos, slot: nat)       // GLUtilities::bindTexture
    | DrawMesh(item: nat, mvp: Mat4)                          // drawMesh of scene object `item`, with its mvp
    | Blur(source: nat, cube: bool)                             // BoxBlur::process over the whole array

  /** The layered framebuffer of an array: its texture, its extent and its layer count. */
  datatype LayeredMap = LayeredMap(texture: nat, width: nat, height: nat, layers: nat, cube: bool)

  /** What a draw reads from a light (Light::castsShadow, Light::vp). */
  datatype LightView = LightView(castsShadow: bool, vp: Mat4)

  /** What a draw reads from a point light (castsShadow, vpFaces: one matrix per cube face). */
  datatype PointView = PointView(castsShadow: bool, faces: seq<Mat4>)

  /** The frustum test: whether the frustum of a view-projection intersects a box. */
  type Visibility = (Mat4, BBox) -> bool

  /** A masked object binds its first texture, so it must have one. */
  predicate Drawable(o: Scene.ObjectState)
  {
    o.masked ==> |o.textures| > 0
  }

  predicate AllDrawable(objects: seq<Scene.ObjectState>)
  {
    forall k :: 0 <= k < |objects| ==> Drawable(objects[k])
  }

  /** Every point light has six face matrices. */
  predicate SixFaces(lights: seq<PointView>)
  {
    forall k :: 0 <= k < |lights| ==> |lights[k].faces| == 6
  }

  // ---------------------------------------------------------------------------
  // The calls, stated as functions.

  /** Whether object `o` is drawn through `frustum`: it casts shadows and the frustum sees it. */
  predicate Shows(frustum: Mat4, o: Scene.ObjectState, visible: Visibility)
  {
    o.castShadow && visible(frustum, o.BoundingBox())
  }

  /**
   * The calls for scene object `k` seen through `frustum`: none when it is skipped;
   * otherwise culling set from its two-sidedness, its first texture bound when it is
   * masked, and the mesh drawn with the frustum's matrix times its model.
   */
  function ObjectCalls(frustum: Mat4, k: nat, o: Scene.ObjectState, visible: Visibility): seq<Call>
    requires Drawable(o)
  {
    if !Shows(frustum, o, visible) then []
    else
      [CullState(!o.twoSided, GL.Back)]
      + (if o.masked then [BindTexture(o.textures[0], 0)] else [])
      + [DrawMesh(k, Product(frustum, o.model))]
  }

  /** The calls for every scene object, in scene order. */
  function SceneCalls(frustum: Mat4, objects: seq<Scene.ObjectState>, visible: Visibility): seq<Call>
    requires AllDrawable(objects)
  {
    if objects == [] then []
    else
      var n := |objects| - 1;
      SceneCalls(frustum, objects[..n], visible) + ObjectCalls(frustum, n, objects[n], visible)
  }

  /** One layer: bound, cleared to white and depth 1, then the scene drawn into it. */
  function LayerCalls(layer: nat, frustum: Mat4, objects: seq<Scene.ObjectState>, visible: Visibility): seq<Call>
    requires AllDrawable(objects)
  {
    [BindLayer(layer)] + [ClearColorAndDepth(OpaqueWhite, 1.0)] + SceneCalls(frustum, objects, visible)
  }

  /** The 2D array's light loop: layer `lid` for each light that casts shadows, none for the others. */
  function LightCalls2D(lights: seq<LightView>, objects: seq<Scene.ObjectState>, visible: Visibility): seq<Call>
    requires AllDrawable(objects)
  {
    if lights == [] then []
    else
      var n := |lights| - 1;
      LightCalls2D(lights[..n], objects, visible)
        + (if lights[n].castsShadow then LayerCalls(n, lights[n].vp, objects, visible) else [])
  }

  /** VarianceShadowMap2DArray::draw. */
  function Draw2DCalls(target: LayeredMap, lights: seq<LightView>, objects: seq<Scene.ObjectState>, visible: Visibility): seq<Call>
    requires AllDrawable(objects)
  {
    [DepthState(true, GL.Less, true)] + [BlendState(false)] + [CullState(true, GL.Back)]
      + [Viewport(target.width, target.height)]
      + LightCalls2D(lights, objects, visible)
      + [Blur(target.texture, false)]
  }

  /** The first `f` faces of point light `lid`: face `i` goes to layer 6 * lid + i. */
  function FaceCalls(lid: nat, faces: seq<Mat4>, f: nat, objects: seq<Scene.ObjectState>, visible: Visibility): seq<Call>
    requires f <= |faces| && AllDrawable(objects)
  {
    if f == 0 then []
    else FaceCalls(lid, faces, f - 1, objects, visible) + LayerCalls(6 * lid + f - 1, faces[f - 1], objects, visible)
  }

  /** The cube array's light loop: six layers for each light that casts shadows, none for the others. */
  function LightCallsCube(lights: seq<PointView>, objects: seq<Scene.ObjectState>, visible: Visibility): seq<Call>
    requires SixFaces(lights) && AllDrawable(objects)
  {
    if lights == [] then []
    else
      var n := |lights| - 1;
      LightCallsCube(lights[..n], objects, visible)
        + (if lights[n].castsShadow then FaceCalls(n, lights[n].faces, 6, objects, visible) else [])
  }

  /** VarianceShadowMapCubeArray::draw: the same state as the 2D array, set cull before blend. */
  function DrawCubeCalls(target: LayeredMap, lights: seq<PointView>, objects: seq<Scene.ObjectState>, visible: Visibility): seq<Call>
    requires SixFaces(lights) && AllDrawable(objects)
  {
    [DepthState(true, GL.Less, true)] + [CullState(true, GL.Back)] + [BlendState(false)]
      + [Viewport(target.width, target.height)]
      + LightCallsCube(lights, objects, visible)
      + [Blur(target.texture, true)]
  }

  // ---------------------------------------------------------------------------
  // Index lists: which lights, layers and objects a draw touches.

  predicate Increasing(s: seq<nat>)
  {
    forall i, j :: 0 <= i < j < |s| ==> s[i] < s[j]
  }

  /** Indices of the lights that cast shadows, in order. */
  function Casters(lights: seq<LightView>): seq<nat>
  {
    if lights == [] then []
    else
      var n := |lights| - 1;
      Casters(lights[..n]) + (if lights[n].castsShadow then [n] else [])
  }

  /** Layers 6 * lid to 6 * lid + f - 1. */
  function FaceLayers(lid: nat, f: nat): seq<nat>
  {
    if f == 0 then [] else FaceLayers(lid, f - 1) + [6 * lid + f - 1]
  }

  /** The six layers of every point light that casts shadows, in order. */
  function CubeLayers(lights: seq<PointView>): seq<nat>
  {
    if lights == [] then []
    else
      var n := |lights| - 1;
      CubeLayers(lights[..n]) + (if lights[n].castsShadow then FaceLayers(n, 6) else [])
  }

  /** Indices of the objects drawn through `frustum`, in scene order. */
  function Shown(frustum: Mat4, objects: seq<Scene.ObjectState>, visible: Visibility): seq<nat>
  {
    if objects == [] then []
    else
      var n := |objects| - 1;
      Shown(frustum, objects[..n], visible) + (if Shows(frustum, objects[n], visible) then [n] else [])
  }

  /** The layers a list of calls binds, in order. */
  function Layers(calls: seq<Call>): seq<nat>
  {
    if calls == [] then []
    else
      var n := |calls| - 1;
      Layers(calls[..n]) + (if calls[n].BindLayer? then [calls[n].layer] else [])
  }

  /** The scene objects a list of calls draws, in order. */
  function Drawn(calls: seq<Call>): seq<nat>
  {
    if calls == [] then []
    else
      var n := |calls| - 1;
      Drawn(calls[..n]) + (if calls[n].DrawMesh? then [calls[n].item] else [])
  }

  /** The objects each shadow-casting light shows, light after light, in scene order. */
  function CastersShown(lights: seq<LightView>, objects: seq<Scene.ObjectState>, visible: Visibility): seq<nat>
  {
    if lights == [] then []
    else
      var n := |lights| - 1;
      CastersShown(lights[..n], objects, visible)
        + (if lights[n].castsShadow then Shown(lights[n].vp, objects, visible) else [])
  }

  /** The objects the first `f` faces of a point light show, face after face. */
  function FacesShown(faces: seq<Mat4>, f: nat, objects: seq<Scene.ObjectState>, visible: Visibility): seq<nat>
    requires f <= |faces|
  {
    if f == 0 then []
    else FacesShown(faces, f - 1, objects, visible) + Shown(faces[f - 1], objects, visible)
  }

  /** The objects the six faces of each shadow-casting point light show, light after light. */
  function CubeCastersShown(lights: seq<PointView>, objects: seq<Scene.ObjectState>, visible: Visibility): seq<nat>
    requires SixFaces(lights)
  {
    if lights == [] then []
    else
      var n := |lights| - 1;
      CubeCastersShown(lights[..n], objects, visible)
        + (if lights[n].castsShadow then FacesShown(lights[n].faces, 6, objects, visible) else [])
  }

  lemma {:induction false} LayersConcat(a: seq<Call>, b: seq<Call>)
    ensures Layers(a + b) == Layers(a) + Layers(b)
  {
    if b == [] {
      assert a + b == a;
    } else {
      var n := |b| - 1;
      LayersConcat(a, b[..n]);
      assert (a + b)[..|a| + n] == a + b[..n];
    }
  }

  lemma {:induction false} DrawnConcat(a: seq<Call>, b: seq<Call>)
    ensures Drawn(a + b) == Drawn(a) + Drawn(b)
  {
    if b == [] {
      assert a + b == a;
    } else {
      var n := |b| - 1;
      DrawnConcat(a, b[..n]);
      assert (a + b)[..|a| + n] == a + b[..n];
    }
  }

  lemma IncreasingConcat(a: seq<nat>, b: seq<nat>)
    requires Increasing(a) && Increasing(b)
    requires forall i, j :: 0 <= i < |a| && 0 <= j < |b| ==> a[i] < b[j]
    ensures Increasing(a + b)
  {
    forall i, j | 0 <= i < j < |a + b|
      ensures (a + b)[i] < (a + b)[j]
    {
      if j < |a| {
        assert (a + b)[i] == a[i] && (a + b)[j] == a[j];
      } else if i < |a| {
        assert (a + b)[i] == a[i] && (a + b)[j] == b[j - |a|];
      } else {
        assert (a + b)[i] == b[i - |a|] && (a + b)[j] == b[j - |a|];
      }
    }
  }

  /** The casting lights are listed once each, in order: index `k` is listed exactly when light `k` casts shadows. */
  lemma {:induction false} CastersExactly(lights: seq<LightView>)
    ensures Increasing(Casters(lights))
    ensures forall k: nat :: k in Casters(lights) <==> k < |lights| && lights[k].castsShadow
  {
    if lights != [] {
      var n := |lights| - 1;
      var before, own := Casters(lights[..n]), if lights[n].castsShadow then [n] else [];
      assert Casters(lights) == before + own;
      CastersExactly(lights[..n]);
      forall i | 0 <= i < |before|
        ensures before[i] < n
      {
        assert before[i] in before;
      }
      IncreasingConcat(before, own);
      forall k: nat
        ensures k in before + own <==> k < |lights| && lights[k].castsShadow
      {
        if k < n {
          assert lights[..n][k] == lights[k];
        }
      }
    }
  }

  /** The shown objects are listed once each, in scene order: exactly those that cast shadows and are visible. */
  lemma {:induction false} ShownExactly(frustum: Mat4, objects: seq<Scene.ObjectState>, visible: Visibility)
    ensures Increasing(Shown(frustum, objects, visible))
    ensures forall k: nat :: k in Shown(frustum, objects, visible) <==> k < |objects| && Shows(frustum, objects[k], visible)
  {
    if objects != [] {
      var n := |objects| - 1;
      var before, own := Shown(frustum, objects[..n], visible), if Shows(frustum, objects[n], visible) then [n] else [];
      assert Shown(frustum, objects, visible) == before + own;
      ShownExactly(frustum, objects[..n], visible);
      forall i | 0 <= i < |before|
        ensures before[i] < n
      {
        assert before[i] in before;
      }
      IncreasingConcat(before, own);
      forall k: nat
        ensures k in before + own <==> k < |objects| && Shows(frustum, objects[k], visible)
      {
        if k < n {
          assert objects[..n][k] == objects[k];
        }
      }
    }
  }

  lemma {:induction false} FaceLayersExactly(lid: nat, f: nat)
    ensures |FaceLayers(lid, f)| == f
    ensures forall i :: 0 <= i < f ==> FaceLayers(lid, f)[i] == 6 * lid + i
  {
    if f > 0 {
      FaceLayersExactly(lid, f - 1);
    }
  }

  /**
   * The cube layers are distinct (strictly increasing), and layer `x` is bound exactly
   * when light x / 6 exists and casts shadows; so every layer is below 6 times the light
   * count, and light `lid` owns layers 6 * lid to 6 * lid + 5.
   */
  lemma {:induction false} CubeLayersExactly(lights: seq<PointView>)
    ensures Increasing(CubeLayers(lights))
    ensures forall x: nat :: x in CubeLayers(lights) <==> x / 6 < |lights| && lights[x / 6].castsShadow
  {
    if lights != [] {
      var n := |lights| - 1;
      var before, own := CubeLayers(lights[..n]), if lights[n].castsShadow then FaceLayers(n, 6) else [];
      assert CubeLayers(lights) == before + own;
      CubeLayersExactly(lights[..n]);
      FaceLayersExactly(n, 6);
      OwnLayers(n, own, lights[n].castsShadow);
      forall i | 0 <= i < |before|
        ensures before[i] < 6 * n
      {
        assert before[i] in before;
      }
      IncreasingConcat(before, own);
      forall x: nat
        ensures x in before + own <==> x / 6 < |lights| && lights[x / 6].castsShadow
      {
        if x / 6 < n {
          assert lights[..n][x / 6] == lights[x / 6];
        }
      }
    }
  }

  /** The layers of light `n`: six consecutive ones from 6 * n when it casts shadows, none otherwise. */
  lemma OwnLayers(n: nat, own: seq<nat>, casts: bool)
    requires own == if casts then FaceLayers(n, 6) else []
    ensures Increasing(own)
    ensures forall i :: 0 <= i < |own| ==> own[i] >= 6 * n
    ensures forall x: nat :: x in own <==> x / 6 == n && casts
  {
    FaceLayersExactly(n, 6);
    forall x: nat
      ensures x in own <==> x / 6 == n && casts
    {
      if x / 6 == n && casts {
        assert own[x - 6 * n] == x;
      }
    }
  }

  // ---------------------------------------------------------------------------
  // Every draw goes into a layer cleared since it was bound.

  /** What the calls so far have done to the bound layer; Unready once a draw hit an uncleared layer. */
  datatype Phase = Unbound | Bound(layer: nat) | Cleared(layer: nat) | Unready

  function Next(p: Phase, c: Call): Phase
  {
    if p.Unready? then Unready
    else
      match c
      case BindLayer(l) => Bound(l)
      case ClearColorAndDepth(_, _) => if p.Bound? then Cleared(p.layer) else p
      case DrawMesh(_, _) => if p.Cleared? then p else Unready
      case _ => p
  }

  function Track(p: Phase, calls: seq<Call>): Phase
  {
    if calls == [] then p
    else Next(Track(p, calls[..|calls| - 1]), calls[|calls| - 1])
  }

  lemma {:induction false} TrackConcat(p: Phase, a: seq<Call>, b: seq<Call>)
    ensures Track(p, a + b) == Track(Track(p, a), b)
  {
    if b == [] {
      assert a + b == a;
    } else {
      var n := |b| - 1;
      TrackConcat(p, a, b[..n]);
      assert (a + b)[..|a| + n] == a + b[..n];
    }
  }

  // ---------------------------------------------------------------------------
  // Each draw is prepared for its object.

  /**
   * The draw at `i` is of an existing object, run with culling on exactly when the
   * object is not two-sided, and, when it is masked, right after its first texture is
   * bound.
   */
  predicate PreparedAt(calls: seq<Call>, objects: seq<Scene.ObjectState>, i: int)
    requires 0 <= i < |calls| && calls[i].DrawMesh?
  {
    var k := calls[i].item;
    && k < |objects| && Drawable(objects[k])
    && if objects[k].masked then
         2 <= i && calls[i - 1] == BindTexture(objects[k].textures[0], 0)
         && calls[i - 2] == CullState(!objects[k].twoSided, GL.Back)
       else
         1 <= i && calls[i - 1] == CullState(!objects[k].twoSided, GL.Back)
  }

  /** Every draw is prepared, and a texture is bound only right before the draw of a masked object. */
  predicate Prepared(calls: seq<Call>, objects: seq<Scene.ObjectState>)
  {
    && (forall i :: 0 <= i < |calls| && calls[i].DrawMesh? ==> PreparedAt(calls, objects, i))
    && (forall i :: 0 <= i < |calls| && calls[i].BindTexture? ==>
          i + 1 < |calls| && calls[i + 1].DrawMesh? && calls[i + 1].item < |objects|
          && objects[calls[i + 1].item].masked)
  }

  lemma PreparedConcat(a: seq<Call>, b: seq<Call>, objects: seq<Scene.ObjectState>)
    requires Prepared(a, objects) && Prepared(b, objects)
    ensures Prepared(a + b, objects)
  {
    var c := a + b;
    forall i | 0 <= i < |c| && c[i].DrawMesh?
      ensures PreparedAt(c, objects, i)
    {
      if i < |a| {
        assert c[i] == a[i] && PreparedAt(a, objects, i);
        if i >= 1 { assert c[i - 1] == a[i - 1]; }
        if i >= 2 { assert c[i - 2] == a[i - 2]; }
      } else {
        var j := i - |a|;
        assert c[i] == b[j] && PreparedAt(b, objects, j);
        if j >= 1 { assert c[i - 1] == b[j - 1]; }
        if j >= 2 { assert c[i - 2] == b[j - 2]; }
      }
    }
    forall i | 0 <= i < |c| && c[i].BindTexture?
      ensures i + 1 < |c| && c[i + 1].DrawMesh? && c[i + 1].item < |objects| && objects[c[i + 1].item].masked
    {
      if i < |a| {
        assert c[i] == a[i] && c[i + 1] == a[i + 1];
      } else {
        assert c[i] == b[i - |a|] && c[i + 1] == b[i + 1 - |a|];
      }
    }
  }

  /** No call of the list is a blur, a depth or blend switch or a viewport change. */
  predicate LayerOnly(calls: seq<Call>)
  {
    forall i :: 0 <= i < |calls| ==>
      calls[i].BindLayer? || calls[i].ClearColorAndDepth? || calls[i].CullState? || calls[i].BindTexture? || calls[i].DrawMesh?
  }

  // ---------------------------------------------------------------------------
  // One layer.

  /** What one call does to the layer list, the drawn list and the phase. */
  lemma OneCall(c: Call, p: Phase)
    ensures Layers([c]) == if c.BindLayer? then [c.layer] else []
    ensures Drawn([c]) == if c.DrawMesh? then [c.item] else []
    ensures Track(p, [c]) == Next(p, c)
  {
    assert [c][..0] == [];
  }

  /** The calls for one object bind no layer and draw the object exactly when it is shown. */
  lemma ObjectListed(frustum: Mat4, k: nat, o: Scene.ObjectState, visible: Visibility)
    requires Drawable(o)
    ensures Layers(ObjectCalls(frustum, k, o, visible)) == []
    ensures Drawn(ObjectCalls(frustum, k, o, visible)) == if Shows(frustum, o, visible) then [k] else []
  {
    if Shows(frustum, o, visible) {
      var cull, tex, draw := [CullState(!o.twoSided, GL.Back)], (if o.masked then [BindTexture(o.textures[0], 0)] else []),
        [DrawMesh(k, Product(frustum, o.model))];
      OneCall(cull[0], Unbound);
      OneCall(draw[0], Unbound);
      if o.masked {
        OneCall(tex[0], Unbound);
      }
      assert Layers(tex) == [] && Drawn(tex) == [];
      LayersConcat(cull, tex);
      DrawnConcat(cull, tex);
      assert Layers(cull + tex) == [] && Drawn(cull + tex) == [];
      LayersConcat(cull + tex, draw);
      DrawnConcat(cull + tex, draw);
      assert Drawn(cull + tex + draw) == [] + [k];
    }
  }

  /** The calls for one object keep a cleared layer cleared. */
  lemma ObjectTracked(frustum: Mat4, k: nat, o: Scene.ObjectState, visible: Visibility, layer: nat)
    requires Drawable(o)
    ensures Track(Cleared(layer), ObjectCalls(frustum, k, o, visible)) == Cleared(layer)
  {
    if Shows(frustum, o, visible) {
      var cull, tex, draw := [CullState(!o.twoSided, GL.Back)], (if o.masked then [BindTexture(o.textures[0], 0)] else []),
        [DrawMesh(k, Product(frustum, o.model))];
      OneCall(cull[0], Cleared(layer));
      OneCall(draw[0], Cleared(layer));
      if o.masked {
        OneCall(tex[0], Cleared(layer));
      }
      TrackConcat(Cleared(layer), cull, tex);
      TrackConcat(Cleared(layer), cull + tex, draw);
    }
  }

  /** The calls for object `k` of the scene are prepared, layer-only, and draw it with the frustum's matrix times its model. */
  lemma ObjectPrepared(frustum: Mat4, objects: seq<Scene.ObjectState>, k: nat, visible: Visibility)
    requires AllDrawable(objects) && k < |objects|
    ensures Prepared(ObjectCalls(frustum, k, objects[k], visible), objects)
    ensures LayerOnly(ObjectCalls(frustum, k, objects[k], visible))
    ensures forall i :: 0 <= i < |ObjectCalls(frustum, k, objects[k], visible)| && ObjectCalls(frustum, k, objects[k], visible)[i].DrawMesh? ==>
      ObjectCalls(frustum, k, objects[k], visible)[i] == DrawMesh(k, Product(frustum, objects[k].model))
  {
    var o := objects[k];
    var own := ObjectCalls(frustum, k, o, visible);
    if Shows(frustum, o, visible) {
      if o.masked {
        assert own == [CullState(!o.twoSided, GL.Back), BindTexture(o.textures[0], 0), DrawMesh(k, Product(frustum, o.model))];
      } else {
        assert own == [CullState(!o.twoSided, GL.Back), DrawMesh(k, Product(frustum, o.model))];
      }
    }
  }

  /** The calls for the scene bind no layer and draw exactly the shown objects, in scene order. */
  lemma {:induction false} SceneListed(frustum: Mat4, objects: seq<Scene.ObjectState>, visible: Visibility)
    requires AllDrawable(objects)
    ensures Layers(SceneCalls(frustum, objects, visible)) == []
    ensures Drawn(SceneCalls(frustum, objects, visible)) == Shown(frustum, objects, visible)
  {
    if objects != [] {
      var n := |objects| - 1;
      var before, own := SceneCalls(frustum, objects[..n], visible), ObjectCalls(frustum, n, objects[n], visible);
      SceneListed(frustum, objects[..n], visible);
      ObjectListed(frustum, n, objects[n], visible);
      LayersConcat(before, own);
      DrawnConcat(before, own);
    }
  }

  /** The calls for the scene keep a cleared layer cleared. */
  lemma {:induction false} SceneTracked(frustum: Mat4, objects: seq<Scene.ObjectState>, visible: Visibility, layer: nat)
    requires AllDrawable(objects)
    ensures Track(Cleared(layer), SceneCalls(frustum, objects, visible)) == Cleared(layer)
  {
    if objects != [] {
      var n := |objects| - 1;
      var before, own := SceneCalls(frustum, objects[..n], visible), ObjectCalls(frustum, n, objects[n], visible);
      SceneTracked(frustum, objects[..n], visible, layer);
      ObjectTracked(frustum, n, objects[n], visible, layer);
      TrackConcat(Cleared(layer), before, own);
    }
  }

  /** Every draw of the scene is prepared and uses the frustum's matrix times the drawn object's model. */
  lemma {:induction false} ScenePrepared(frustum: Mat4, objects: seq<Scene.ObjectState>, visible: Visibility)
    requires AllDrawable(objects)
    ensures Prepared(SceneCalls(frustum, objects, visible), objects)
    ensures LayerOnly(SceneCalls(frustum, objects, visible))
    ensures forall i :: 0 <= i < |SceneCalls(frustum, objects, visible)| && SceneCalls(frustum, objects, visible)[i].DrawMesh? ==>
      SceneCalls(frustum, objects, visible)[i].item < |objects|
      && SceneCalls(frustum, objects, visible)[i].mvp == Product(frustum, objects[SceneCalls(frustum, objects, visible)[i].item].model)
  {
    if objects != [] {
      var n := |objects| - 1;
      var before, own := SceneCalls(frustum, objects[..n], visible), ObjectCalls(frustum, n, objects[n], visible);
      ScenePrepared(frustum, objects[..n], visible);
      ObjectPrepared(frustum, objects, n, visible);
      PreparedInPrefix(before, objects[..n], objects);
      PreparedConcat(before, own, objects);
      forall i | 0 <= i < |before + own| && (before + own)[i].DrawMesh?
        ensures (before + own)[i].item < |objects|
        ensures (before + own)[i].mvp == Product(frustum, objects[(before + own)[i].item].model)
      {
        if i < |before| {
          assert (before + own)[i] == before[i];
        } else {
          assert (before + own)[i] == own[i - |before|];
        }
      }
    }
  }

  /** Calls prepared for a prefix of the scene are prepared for the whole scene. */
  lemma PreparedInPrefix(calls: seq<Call>, prefix: seq<Scene.ObjectState>, objects: seq<Scene.ObjectState>)
    requires Prepared(calls, prefix) && prefix <= objects
    ensures Prepared(calls, objects)
  {
    forall i | 0 <= i < |calls| && calls[i].DrawMesh?
      ensures PreparedAt(calls, objects, i)
    {
      assert PreparedAt(calls, prefix, i);
      assert objects[calls[i].item] == prefix[calls[i].item];
    }
  }

  /** One layer binds exactly that layer and draws exactly the shown objects, in scene order. */
  lemma LayerListed(layer: nat, frustum: Mat4, objects: seq<Scene.ObjectState>, visible: Visibility)
    requires AllDrawable(objects)
    ensures Layers(LayerCalls(layer, frustum, objects, visible)) == [layer]
    ensures Drawn(LayerCalls(layer, frustum, objects, visible)) == Shown(frustum, objects, visible)
  {
    var bind, clear := [BindLayer(layer)], [ClearColorAndDepth(OpaqueWhite, 1.0)];
    var scene := SceneCalls(frustum, objects, visible);
    SceneListed(frustum, objects, visible);
    OneCall(bind[0], Unbound);
    OneCall(clear[0], Unbound);
    assert Layers(bind) == [layer] && Layers(clear) == [] && Drawn(bind) == [] && Drawn(clear) == [];
    LayersConcat(bind, clear);
    DrawnConcat(bind, clear);
    assert Layers(bind + clear) == [layer] + [] && Drawn(bind + clear) == [] + [];
    LayersConcat(bind + clear, scene);
    DrawnConcat(bind + clear, scene);
    assert Layers(bind + clear + scene) == [layer] + [] && Drawn(bind + clear + scene) == [] + Shown(frustum, objects, visible);
  }

  /** One layer leaves that layer cleared, whatever came before, unless a draw already went wrong. */
  lemma LayerTracked(layer: nat, frustum: Mat4, objects: seq<Scene.ObjectState>, visible: Visibility, p: Phase)
    requires AllDrawable(objects) && !p.Unready?
    ensures Track(p, LayerCalls(layer, frustum, objects, visible)) == Cleared(layer)
  {
    var bind, clear := [BindLayer(layer)], [ClearColorAndDepth(OpaqueWhite, 1.0)];
    SceneTracked(frustum, objects, visible, layer);
    OneCall(bind[0], p);
    OneCall(clear[0], Bound(layer));
    TrackConcat(p, bind, clear);
    TrackConcat(p, bind + clear, SceneCalls(frustum, objects, visible));
  }

  /** Every draw of a layer is prepared, and the layer's calls touch only layers, culling, textures and meshes. */
  lemma LayerPrepared(layer: nat, frustum: Mat4, objects: seq<Scene.ObjectState>, visible: Visibility)
    requires AllDrawable(objects)
    ensures Prepared(LayerCalls(layer, frustum, objects, visible), objects)
    ensures LayerOnly(LayerCalls(layer, frustum, objects, visible))
  {
    var head := [BindLayer(layer)] + [ClearColorAndDepth(OpaqueWhite, 1.0)];
    ScenePrepared(frustum, objects, visible);
    PreparedConcat(head, SceneCalls(frustum, objects, visible), objects);
  }

  /** Calls that neither bind, clear nor draw leave the layer and drawn lists empty and the phase unchanged. */
  lemma {:induction false} Quiet(calls: seq<Call>, p: Phase)
    requires forall i :: 0 <= i < |calls| ==> !calls[i].BindLayer? && !calls[i].ClearColorAndDepth? && !calls[i].DrawMesh?
    ensures Layers(calls) == [] && Drawn(calls) == [] && Track(p, calls) == p
  {
    if calls != [] {
      Quiet(calls[..|calls| - 1], p);
    }
  }

  // ---------------------------------------------------------------------------
  // The light loops.

  /** The 2D light loop binds layer `lid` for exactly the lights that cast shadows, in order. */
  lemma {:induction false} Lights2DListed(lights: seq<LightView>, objects: seq<Scene.ObjectState>, visible: Visibility)
    requires AllDrawable(objects)
    ensures Layers(LightCalls2D(lights, objects, visible)) == Casters(lights)
  {
    if lights != [] {
      var n := |lights| - 1;
      var before := LightCalls2D(lights[..n], objects, visible);
      var own := if lights[n].castsShadow then LayerCalls(n, lights[n].vp, objects, visible) else [];
      Lights2DListed(lights[..n], objects, visible);
      LayersConcat(before, own);
      if lights[n].castsShadow {
        LayerListed(n, lights[n].vp, objects, visible);
      }
    }
  }

  /** The 2D light loop never draws into a layer it has not cleared since binding it. */
  lemma {:induction false} Lights2DTracked(lights: seq<LightView>, objects: seq<Scene.ObjectState>, visible: Visibility, p: Phase)
    requires AllDrawable(objects) && !p.Unready?
    ensures !Track(p, LightCalls2D(lights, objects, visible)).Unready?
  {
    if lights != [] {
      var n := |lights| - 1;
      var before := LightCalls2D(lights[..n], objects, visible);
      var own := if lights[n].castsShadow then LayerCalls(n, lights[n].vp, objects, visible) else [];
      Lights2DTracked(lights[..n], objects, visible, p);
      TrackConcat(p, before, own);
      if lights[n].castsShadow {
        LayerTracked(n, lights[n].vp, objects, visible, Track(p, before));
      }
    }
  }

  lemma {:induction false} Lights2DPrepared(lights: seq<LightView>, objects: seq<Scene.ObjectState>, visible: Visibility)
    requires AllDrawable(objects)
    ensures Prepared(LightCalls2D(lights, objects, visible), objects)
    ensures LayerOnly(LightCalls2D(lights, objects, visible))
  {
    if lights != [] {
      var n := |lights| - 1;
      var before := LightCalls2D(lights[..n], objects, visible);
      var own := if lights[n].castsShadow then LayerCalls(n, lights[n].vp, objects, visible) else [];
      Lights2DPrepared(lights[..n], objects, visible);
      if lights[n].castsShadow {
        LayerPrepared(n, lights[n].vp, objects, visible);
      }
      PreparedConcat(before, own, objects);
    }
  }

  /** The first `f` faces bind layers 6 * lid to 6 * lid + f - 1, in order. */
  lemma {:induction false} FacesListed(lid: nat, faces: seq<Mat4>, f: nat, objects: seq<Scene.ObjectState>, visible: Visibility)
    requires f <= |faces| && AllDrawable(objects)
    ensures Layers(FaceCalls(lid, faces, f, objects, visible)) == FaceLayers(lid, f)
  {
    if f > 0 {
      var layer: nat := 6 * lid + f - 1;
      var before := FaceCalls(lid, faces, f - 1, objects, visible);
      var own := LayerCalls(layer, faces[f - 1], objects, visible);
      assert FaceCalls(lid, faces, f, objects, visible) == before + own;
      assert FaceLayers(lid, f) == FaceLayers(lid, f - 1) + [layer];
      FacesListed(lid, faces, f - 1, objects, visible);
      LayersConcat(before, own);
      LayerListed(layer, faces[f - 1], objects, visible);
    }
  }

  /** The faces never draw into a layer not cleared since it was bound. */
  lemma {:induction false} FacesTracked(lid: nat, faces: seq<Mat4>, f: nat, objects: seq<Scene.ObjectState>, visible: Visibility, p: Phase)
    requires f <= |faces| && AllDrawable(objects) && !p.Unready?
    ensures !Track(p, FaceCalls(lid, faces, f, objects, visible)).Unready?
  {
    if f > 0 {
      var layer: nat := 6 * lid + f - 1;
      var before := FaceCalls(lid, faces, f - 1, objects, visible);
      var own := LayerCalls(layer, faces[f - 1], objects, visible);
      assert FaceCalls(lid, faces, f, objects, visible) == before + own;
      FacesTracked(lid, faces, f - 1, objects, visible, p);
      TrackConcat(p, before, own);
      LayerTracked(layer, faces[f - 1], objects, visible, Track(p, before));
    }
  }

  lemma {:induction false} FacesPrepared(lid: nat, faces: seq<Mat4>, f: nat, objects: seq<Scene.ObjectState>, visible: Visibility)
    requires f <= |faces| && AllDrawable(objects)
    ensures Prepared(FaceCalls(lid, faces, f, objects, visible), objects)
    ensures LayerOnly(FaceCalls(lid, faces, f, objects, visible))
  {
    if f > 0 {
      FacesPrepared(lid, faces, f - 1, objects, visible);
      LayerPrepared(6 * lid + f - 1, faces[f - 1], objects, visible);
      PreparedConcat(FaceCalls(lid, faces, f - 1, objects, visible), LayerCalls(6 * lid + f - 1, faces[f - 1], objects, visible), objects);
    }
  }

  /** The cube light loop binds the six layers of exactly the lights that cast shadows, in order. */
  lemma {:induction false} LightsCubeListed(lights: seq<PointView>, objects: seq<Scene.ObjectState>, visible: Visibility)
    requires SixFaces(lights) && AllDrawable(objects)
    ensures Layers(LightCallsCube(lights, objects, visible)) == CubeLayers(lights)
  {
    if lights != [] {
      var n := |lights| - 1;
      var before := LightCallsCube(lights[..n], objects, visible);
      var own := if lights[n].castsShadow then FaceCalls(n, lights[n].faces, 6, objects, visible) else [];
      LightsCubeListed(lights[..n], objects, visible);
      LayersConcat(before, own);
      if lights[n].castsShadow {
        FacesListed(n, lights[n].faces, 6, objects, visible);
      }
    }
  }

  /** The cube light loop never draws into a layer not cleared since it was bound. */
  lemma {:induction false} LightsCubeTracked(lights: seq<PointView>, objects: seq<Scene.ObjectState>, visible: Visibility, p: Phase)
    requires SixFaces(lights) && AllDrawable(objects) && !p.Unready?
    ensures !Track(p, LightCallsCube(lights, objects, visible)).Unready?
  {
    if lights != [] {
      var n := |lights| - 1;
      var before := LightCallsCube(lights[..n], objects, visible);
      var own := if lights[n].castsShadow then FaceCalls(n, lights[n].faces, 6, objects, visible) else [];
      LightsCubeTracked(lights[..n], objects, visible, p);
      TrackConcat(p, before, own);
      if lights[n].castsShadow {
        FacesTracked(n, lights[n].faces, 6, objects, visible, Track(p, before));
      }
    }
  }

  lemma {:induction false} LightsCubePrepared(lights: seq<PointView>, objects: seq<Scene.ObjectState>, visible: Visibility)
    requires SixFaces(lights) && AllDrawable(objects)
    ensures Prepared(LightCallsCube(lights, objects, visible), objects)
    ensures LayerOnly(LightCallsCube(lights, objects, visible))
  {
    if lights != [] {
      var n := |lights| - 1;
      var before := LightCallsCube(lights[..n], objects, visible);
      var own := if lights[n].castsShadow then FaceCalls(n, lights[n].faces, 6, objects, visible) else [];
      LightsCubePrepared(lights[..n], objects, visible);
      if lights[n].castsShadow {
        FacesPrepared(n, lights[n].faces, 6, objects, visible);
      }
      PreparedConcat(before, own, objects);
    }
  }

  /** The 2D light loop draws, light after light, exactly what each shadow-casting light shows. */
  lemma {:induction false} Lights2DDrawn(lights: seq<LightView>, objects: seq<Scene.ObjectState>, visible: Visibility)
    requires AllDrawable(objects)
    ensures Drawn(LightCalls2D(lights, objects, visible)) == CastersShown(lights, objects, visible)
  {
    if lights != [] {
      var n := |lights| - 1;
      var before := LightCalls2D(lights[..n], objects, visible);
      var own := if lights[n].castsShadow then LayerCalls(n, lights[n].vp, objects, visible) else [];
      Lights2DDrawn(lights[..n], objects, visible);
      DrawnConcat(before, own);
      if lights[n].castsShadow {
        LayerListed(n, lights[n].vp, objects, visible);
      }
    }
  }

  /** The first `f` faces draw, face after face, exactly what each face shows. */
  lemma {:induction false} FacesDrawn(lid: nat, faces: seq<Mat4>, f: nat, objects: seq<Scene.ObjectState>, visible: Visibility)
    requires f <= |faces| && AllDrawable(objects)
    ensures Drawn(FaceCalls(lid, faces, f, objects, visible)) == FacesShown(faces, f, objects, visible)
  {
    if f > 0 {
      var layer: nat := 6 * lid + f - 1;
      var before := FaceCalls(lid, faces, f - 1, objects, visible);
      var own := LayerCalls(layer, faces[f - 1], objects, visible);
      assert FaceCalls(lid, faces, f, objects, visible) == before + own;
      FacesDrawn(lid, faces, f - 1, objects, visible);
      DrawnConcat(before, own);
      LayerListed(layer, faces[f - 1], objects, visible);
    }
  }

  /** The cube light loop draws, light after light, exactly what the faces of each shadow-casting light show. */
  lemma {:induction false} LightsCubeDrawn(lights: seq<PointView>, objects: seq<Scene.ObjectState>, visible: Visibility)
    requires SixFaces(lights) && AllDrawable(objects)
    ensures Drawn(LightCallsCube(lights, objects, visible)) == CubeCastersShown(lights, objects, visible)
  {
    if lights != [] {
      var n := |lights| - 1;
      var before := LightCallsCube(lights[..n], objects, visible);
      var own := if lights[n].castsShadow then FaceCalls(n, lights[n].faces, 6, objects, visible) else [];
      LightsCubeDrawn(lights[..n], objects, visible);
      DrawnConcat(before, own);
      if lights[n].castsShadow {
        FacesDrawn(n, lights[n].faces, 6, objects, visible);
      }
    }
  }

  // ---------------------------------------------------------------------------
  // A whole draw.

  /**
   * A draw sets depth, blend and cull state and the viewport in its first four calls and
   * never again, ends with the one blur of the whole array, and prepares every draw call.
   */
  predicate Framed(calls: seq<Call>, texture: nat, cube: bool, objects: seq<Scene.ObjectState>)
  {
    && |calls| >= 5
    && calls[|calls| - 1] == Blur(texture, cube)
    && (forall i :: 0 <= i < |calls| - 1 ==> !calls[i].Blur?)
    && (forall i :: 4 <= i < |calls| ==> !calls[i].DepthState? && !calls[i].BlendState? && !calls[i].Viewport?)
    && Prepared(calls, objects)
  }

  /** The shape of a draw around its light loop. */
  lemma FramedAround(setup: seq<Call>, middle: seq<Call>, blur: Call, objects: seq<Scene.ObjectState>)
    requires |setup| == 4 && blur.Blur?
    requires forall i :: 0 <= i < 4 ==> !setup[i].Blur? && !setup[i].DrawMesh? && !setup[i].BindTexture?
    requires LayerOnly(middle) && Prepared(middle, objects)
    ensures Framed(setup + middle + [blur], blur.source, blur.cube, objects)
  {
    var calls := setup + middle + [blur];
    assert Prepared(setup, objects);
    PreparedConcat(setup, middle, objects);
    assert Prepared([blur], objects);
    PreparedConcat(setup + middle, [blur], objects);
    forall i | 4 <= i < |calls|
      ensures !calls[i].DepthState? && !calls[i].BlendState? && !calls[i].Viewport?
    {
      if i < |calls| - 1 {
        assert calls[i] == middle[i - 4];
      }
    }
    forall i | 0 <= i < |calls| - 1
      ensures !calls[i].Blur?
    {
      if i >= 4 {
        assert calls[i] == middle[i - 4];
      }
    }
  }

  /**
   * VarianceShadowMap2DArray::draw binds layer `lid` for exactly the lights that cast
   * shadows, in order, and clears every layer before drawing into it.
   */
  lemma Draw2DLayers(target: LayeredMap, lights: seq<LightView>, objects: seq<Scene.ObjectState>, visible: Visibility)
    requires AllDrawable(objects)
    ensures Layers(Draw2DCalls(target, lights, objects, visible)) == Casters(lights)
    ensures !Track(Unbound, Draw2DCalls(target, lights, objects, visible)).Unready?
  {
    var setup := [DepthState(true, GL.Less, true)] + [BlendState(false)] + [CullState(true, GL.Back)]
      + [Viewport(target.width, target.height)];
    var middle := LightCalls2D(lights, objects, visible);
    var blur := [Blur(target.texture, false)];
    Quiet(setup, Unbound);
    Quiet(blur, Track(Unbound, setup + middle));
    Lights2DListed(lights, objects, visible);
    Lights2DTracked(lights, objects, visible, Unbound);
    LayersConcat(setup, middle);
    LayersConcat(setup + middle, blur);
    TrackConcat(Unbound, setup, middle);
    TrackConcat(Unbound, setup + middle, blur);
  }

  /** The same draw is framed: state set up front, one blur at the end, every draw prepared. */
  lemma Draw2DFramed(target: LayeredMap, lights: seq<LightView>, objects: seq<Scene.ObjectState>, visible: Visibility)
    requires AllDrawable(objects)
    ensures Framed(Draw2DCalls(target, lights, objects, visible), target.texture, false, objects)
  {
    var setup := [DepthState(true, GL.Less, true)] + [BlendState(false)] + [CullState(true, GL.Back)]
      + [Viewport(target.width, target.height)];
    var middle := LightCalls2D(lights, objects, visible);
    var blur := [Blur(target.texture, false)];
    Lights2DPrepared(lights, objects, visible);
    FramedAround(setup, middle, blur[0], objects);
  }


  /**
   * VarianceShadowMapCubeArray::draw binds the six layers of exactly the point lights
   * that cast shadows, in order and each once, and clears every layer before drawing
   * into it.
   */
  lemma DrawCubeLayers(target: LayeredMap, lights: seq<PointView>, objects: seq<Scene.ObjectState>, visible: Visibility)
    requires SixFaces(lights) && AllDrawable(objects)
    ensures Layers(DrawCubeCalls(target, lights, objects, visible)) == CubeLayers(lights)
    ensures !Track(Unbound, DrawCubeCalls(target, lights, objects, visible)).Unready?
  {
    var setup := [DepthState(true, GL.Less, true)] + [CullState(true, GL.Back)] + [BlendState(false)]
      + [Viewport(target.width, target.height)];
    var middle := LightCallsCube(lights, objects, visible);
    var blur := [Blur(target.texture, true)];
    Quiet(setup, Unbound);
    Quiet(blur, Track(Unbound, setup + middle));
    LightsCubeListed(lights, objects, visible);
    LightsCubeTracked(lights, objects, visible, Unbound);
    LayersConcat(setup, middle);
    LayersConcat(setup + middle, blur);
    TrackConcat(Unbound, setup, middle);
    TrackConcat(Unbound, setup + middle, blur);
  }

  /** VarianceShadowMap2DArray::draw draws exactly what each shadow-casting light shows, light after light. */
  lemma Draw2DDrawn(target: LayeredMap, lights: seq<LightView>, objects: seq<Scene.ObjectState>, visible: Visibility)
    requires AllDrawable(objects)
    ensures Drawn(Draw2DCalls(target, lights, objects, visible)) == CastersShown(lights, objects, visible)
  {
    var setup := [DepthState(true, GL.Less, true)] + [BlendState(false)] + [CullState(true, GL.Back)]
      + [Viewport(target.width, target.height)];
    var middle := LightCalls2D(lights, objects, visible);
    var blur := [Blur(target.texture, false)];
    Quiet(setup, Unbound);
    Quiet(blur, Unbound);
    Lights2DDrawn(lights, objects, visible);
    DrawnConcat(setup, middle);
    DrawnConcat(setup + middle, blur);
  }

  /** The same draw is framed: state set up front, one blur at the end, every draw prepared. */
  lemma DrawCubeFramed(target: LayeredMap, lights: seq<PointView>, objects: seq<Scene.ObjectState>, visible: Visibility)
    requires SixFaces(lights) && AllDrawable(objects)
    ensures Framed(DrawCubeCalls(target, lights, objects, visible), target.texture, true, objects)
  {
    var setup := [DepthState(true, GL.Less, true)] + [CullState(true, GL.Back)] + [BlendState(false)]
      + [Viewport(target.width, target.height)];
    var middle := LightCallsCube(lights, objects, visible);
    var blur := [Blur(target.texture, true)];
    LightsCubePrepared(lights, objects, visible);
    FramedAround(setup, middle, blur[0], objects);
  }

  /** VarianceShadowMapCubeArray::draw draws exactly what the faces of each shadow-casting light show. */
  lemma DrawCubeDrawn(target: LayeredMap, lights: seq<PointView>, objects: seq<Scene.ObjectState>, visible: Visibility)
    requires SixFaces(lights) && AllDrawable(objects)
    ensures Drawn(DrawCubeCalls(target, lights, objects, visible)) == CubeCastersShown(lights, objects, visible)
  {
    var setup := [DepthState(true, GL.Less, true)] + [CullState(true, GL.Back)] + [BlendState(false)]
      + [Viewport(target.width, target.height)];
    var middle := LightCallsCube(lights, objects, visible);
    var blur := [Blur(target.texture, true)];
    Quiet(setup, Unbound);
    Quiet(blur, Unbound);
    LightsCubeDrawn(lights, objects, visible);
    DrawnConcat(setup, middle);
    DrawnConcat(setup + middle, blur);
  }


  // ---------------------------------------------------------------------------
  // The lights and the arrays.

  /** The texture and slot a light was registered with (Light::registerShadowMap). */
  datatype Registration = Registration(texture: nat, slot: nat)

  /** A light of the 2D array, as the array uses it. */
  class Light {
    var castsShadow: bool
    var vp: Mat4
    var registration: Option<Registration>

    constructor (casts: bool, viewProjection: Mat4)
      ensures castsShadow == casts && vp == viewProjection && registration == None
    {
      castsShadow := casts;
      vp := viewProjection;
      registration := None;
    }

    method RegisterShadowMap(texture: nat, slot: nat)
      modifies this`registration
      ensures registration == Some(Registration(texture, slot))
    {
      registration := Some(Registration(texture, slot));
    }
  }

  /** A point light of the cube array: one view-projection per cube face. */
  class PointLight {
    var castsShadow: bool
    var faces: seq<Mat4>
    var registration: Option<Registration>

    constructor (casts: bool, faceMatrices: seq<Mat4>)
      requires |faceMatrices| == 6
      ensures castsShadow == casts && faces == faceMatrices && registration == None
    {
      castsShadow := casts;
      faces := faceMatrices;
      registration := None;
    }

    method RegisterShadowMap(texture: nat, slot: nat)
      modifies this`registration
      ensures registration == Some(Registration(texture, slot))
    {
      registration := Some(Registration(texture, slot));
    }
  }

  function Views(lights: seq<Light>): (r: seq<LightView>)
    reads lights
    ensures |r| == |lights|
    ensures forall k :: 0 <= k < |lights| ==> r[k] == LightView(lights[k].castsShadow, lights[k].vp)
  {
    if lights == [] then []
    else Views(lights[..|lights| - 1]) + [LightView(lights[|lights| - 1].castsShadow, lights[|lights| - 1].vp)]
  }

  function PointViews(lights: seq<PointLight>): (r: seq<PointView>)
    reads lights
    ensures |r| == |lights|
    ensures forall k :: 0 <= k < |lights| ==> r[k] == PointView(lights[k].castsShadow, lights[k].faces)
  {
    if lights == [] then []
    else PointViews(lights[..|lights| - 1]) + [PointView(lights[|lights| - 1].castsShadow, lights[|lights| - 1].faces)]
  }

  /** `s[k]` does not occur again after index `k`: a light listed twice keeps its last slot. */
  predicate LastOccurrence<T(==)>(s: seq<T>, k: int)
    requires 0 <= k < |s|
  {
    forall j :: k < j < |s| ==> s[j] != s[k]
  }

  /**
   * The inner object loop of both draws, for one layer: bind it, clear it to white and
   * depth 1, then for each object in scene order skip it unless it casts shadows and the
   * frustum intersects its bounding box; otherwise set culling from its two-sidedness,
   * bind its first texture when it is masked, and draw its mesh.
   */
  method DrawLayer(layer: nat, frustum: Mat4, objects: seq<Scene.ObjectState>, visible: Visibility) returns (calls: seq<Call>)
    requires AllDrawable(objects)
    ensures calls == LayerCalls(layer, frustum, objects, visible)
  {
    calls := [BindLayer(layer)] + [ClearColorAndDepth(OpaqueWhite, 1.0)];
    ghost var head := calls;
    for k := 0 to |objects|
      invariant calls == head + SceneCalls(frustum, objects[..k], visible)
    {
      assert objects[..k + 1][..k] == objects[..k];
      var o := objects[k];
      if !o.castShadow {
        continue;
      }
      if !visible(frustum, o.BoundingBox()) {
        continue;
      }
      var own := [CullState(!o.twoSided, GL.Back)];
      if o.masked {
        own := own + [BindTexture(o.textures[0], 0)];
      }
      own := own + [DrawMesh(k, Product(frustum, o.model))];
      assert own == ObjectCalls(frustum, k, o, visible);
      GL.Logged(head, SceneCalls(frustum, objects[..k], visible), own);
      calls := calls + own;
    }
    assert objects[..|objects|] == objects;
  }

  /** The face loop of the cube draw: face `i` of light `lid` renders into layer 6 * lid + i. */
  method DrawFaces(lid: nat, faces: seq<Mat4>, objects: seq<Scene.ObjectState>, visible: Visibility) returns (calls: seq<Call>)
    requires |faces| == 6 && AllDrawable(objects)
    ensures calls == FaceCalls(lid, faces, 6, objects, visible)
  {
    calls := [];
    for i := 0 to 6
      invariant calls == FaceCalls(lid, faces, i, objects, visible)
    {
      var own := DrawLayer(6 * lid + i, faces[i], objects, visible);
      assert FaceCalls(lid, faces, i + 1, objects, visible) == calls + own;
      calls := calls + own;
    }
  }

  /** VarianceShadowMap2DArray: one layer per light, all sharing one texture. */
  class ShadowMap2DArray {
    var lights: seq<Light>
    var target: LayeredMap

    /**
     * The constructor: a layered target of the given resolution with one layer per
     * light, and light `lid` registered with slot `lid` of its texture. A light listed
     * more than once keeps the slot of its last occurrence. Nothing else of a light changes.
     */
    constructor (lights: seq<Light>, width: nat, height: nat, texture: nat)
      modifies lights
      ensures this.lights == lights
      ensures target == LayeredMap(texture, width, height, |lights|, false)
      ensures forall k :: 0 <= k < |lights| && LastOccurrence(lights, k) ==>
        lights[k].registration == Some(Registration(texture, k))
      ensures forall k :: 0 <= k < |lights| ==> lights[k].castsShadow == old(lights[k].castsShadow) && lights[k].vp == old(lights[k].vp)
    {
      this.lights := lights;
      target := LayeredMap(texture, width, height, |lights|, false);
      new;
      for lid := 0 to |lights|
        invariant this.lights == lights && target == LayeredMap(texture, width, height, |lights|, false)
        invariant forall k :: 0 <= k < lid && (forall j :: k < j < lid ==> lights[j] != lights[k]) ==>
          lights[k].registration == Some(Registration(texture, k))
        invariant forall k :: 0 <= k < |lights| ==> lights[k].castsShadow == old(lights[k].castsShadow) && lights[k].vp == old(lights[k].vp)
      {
        lights[lid].RegisterShadowMap(texture, lid);
      }
    }

    /**
     * draw: depth test LESS with writes, no blending, back faces culled, the target's
     * viewport; then each light that casts shadows renders its layer; then one blur.
     */
    method Draw(objects: seq<Scene.ObjectState>, visible: Visibility) returns (calls: seq<Call>)
      requires AllDrawable(objects)
      ensures calls == Draw2DCalls(target, Views(lights), objects, visible)
    {
      ghost var views := Views(lights);
      calls := [DepthState(true, GL.Less, true)] + [BlendState(false)] + [CullState(true, GL.Back)]
        + [Viewport(target.width, target.height)];
      ghost var setup := calls;
      for lid := 0 to |lights|
        invariant calls == setup + LightCalls2D(views[..lid], objects, visible)
      {
        assert views[..lid + 1][..lid] == views[..lid];
        var light := lights[lid];
        if !light.castsShadow {
          continue;
        }
        var own := DrawLayer(lid, light.vp, objects, visible);
        GL.Logged(setup, LightCalls2D(views[..lid], objects, visible), own);
        calls := calls + own;
      }
      assert views[..|lights|] == views;
      calls := calls + [Blur(target.texture, false)];
    }
  }

  /** VarianceShadowMapCubeArray: one cube, six layers, per point light, all sharing one texture. */
  class ShadowMapCubeArray {
    var lights: seq<PointLight>
    var target: LayeredMap

    /**
     * The constructor: a cube-array target of the given side with one cube (six layers)
     * per light, and light `lid` registered with slot `lid` of its texture. A light listed
     * more than once keeps the slot of its last occurrence. Nothing else of a light changes.
     */
    constructor (lights: seq<PointLight>, side: nat, texture: nat)
      modifies lights
      ensures this.lights == lights
      ensures target == LayeredMap(texture, side, side, 6 * |lights|, true)
      ensures forall k :: 0 <= k < |lights| && LastOccurrence(lights, k) ==>
        lights[k].registration == Some(Registration(texture, k))
      ensures forall k :: 0 <= k < |lights| ==> lights[k].castsShadow == old(lights[k].castsShadow) && lights[k].faces == old(lights[k].faces)
    {
      this.lights := lights;
      target := LayeredMap(texture, side, side, 6 * |lights|, true);
      new;
      for lid := 0 to |lights|
        invariant this.lights == lights && target == LayeredMap(texture, side, side, 6 * |lights|, true)
        invariant forall k :: 0 <= k < lid && (forall j :: k < j < lid ==> lights[j] != lights[k]) ==>
          lights[k].registration == Some(Registration(texture, k))
        invariant forall k :: 0 <= k < |lights| ==> lights[k].castsShadow == old(lights[k].castsShadow) && lights[k].faces == old(lights[k].faces)
      {
        lights[lid].RegisterShadowMap(texture, lid);
      }
    }

    /**
     * draw: depth test LESS with writes, back faces culled, no blending, the target's
     * viewport; then each point light that casts shadows renders its six faces, face `i`
     * into layer 6 * lid + i; then one blur.
     */
    method Draw(objects: seq<Scene.ObjectState>, visible: Visibility) returns (calls: seq<Call>)
      requires forall k :: 0 <= k < |lights| ==> |lights[k].faces| == 6
      requires AllDrawable(objects)
      ensures SixFaces(PointViews(lights))
      ensures calls == DrawCubeCalls(target, PointViews(lights), objects, visible)
    {
      ghost var views := PointViews(lights);
      calls := [DepthState(true, GL.Less, true)] + [CullState(true, GL.Back)] + [BlendState(false)]
        + [Viewport(target.width, target.height)];
      ghost var setup := calls;
      for lid := 0 to |lights|
        invariant SixFaces(views[..lid])
        invariant calls == setup + LightCallsCube(views[..lid], objects, visible)
      {
        assert views[..lid + 1][..lid] == views[..lid];
        var light := lights[lid];
        if !light.castsShadow {
          continue;
        }
        assert views[lid] == PointView(light.castsShadow, light.faces);
        var own := DrawFaces(lid, light.faces, objects, visible);
        GL.Logged(setup, LightCallsCube(views[..lid], objects, visible), own);
        calls := calls + own;
      }
      assert views[..|lights|] == views;
      calls := calls + [Blur(target.texture, true)];
    }
  }
}
