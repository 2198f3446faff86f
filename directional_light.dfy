/**
 * A directional light of the deferred renderer (src/engine/lights/DirectionalLight.cpp):
 * its matrices, its two render targets (the shadow map and its blurred copy), the
 * textures its lighting quad reads, and the bind / blur-and-unbind protocol that
 * brackets the shadow pass.
 *
 * Matrices are symbolic terms (`Geometry.Mat4`); glm::ortho and glm::lookAt are never
 * evaluated.
 */
module DirectionalLights {

  import opened Wrappers
  import opened Geometry
  import opened Graphics

  /** Side of the shadow map, in texels. */
  const ShadowSide: int := 512

  /** What DirectionalLight::clean releases. */
  datatype LightResource = BlurTarget | BlurScreen | ShadowTarget

  /** The order DirectionalLight::clean releases its resources in. */
  const LightReleaseOrder: seq<LightResource> := [BlurTarget, BlurScreen, ShadowTarget]

  /** The view and view-projection of a light shining along `direction`, towards the origin. */
  function LightView(direction: Vec3): Mat4
  {
    LookAt(direction.Negated(), Origin, Up)
  }

  class DirectionalLight {
    var direction: Vec3
    var projection: Mat4
    var view: Mat4
    var mvp: Mat4
    /** Set by Init; None before. */
    var shadowPass: Option<RenderTarget>
    var blurPass: Option<RenderTarget>
    /** Texture the blur screen reads. */
    var blurSource: nat
    /** Textures the lighting screen quad reads, by uniform name. */
    var inputs: map<string, nat>
    /** Resources released so far, oldest first. */
    var released: seq<LightResource>

    /** The matrices agree with the direction and the projection. */
    ghost predicate Consistent()
      reads this
    {
      view == LightView(direction) && mvp == Product(projection, view)
    }

    /** Init has run: both targets exist, are 512x512, and the blur reads the shadow map. */
    ghost predicate Ready()
      reads this
    {
      && shadowPass.Some? && blurPass.Some?
      && shadowPass.value.size == Size(ShadowSide, ShadowSide)
      && blurPass.value.size == shadowPass.value.size
      && blurSource == shadowPass.value.texture
      && "shadowMap" in inputs && inputs["shadowMap"] == blurPass.value.texture
    }

    /**
     * DirectionalLight(direction, colour, extent, near, far): an orthographic projection
     * of half-width `extent`, a view from the opposite of the direction towards the origin
     * with +Y up, and their product. The colour only feeds a shader uniform.
     */
    constructor (worldDirection: Vec3, extent: real, near: real, far: real)
      ensures direction == worldDirection
      ensures projection == Ortho(-extent, extent, -extent, extent, near, far)
      ensures Consistent()
      ensures shadowPass == None && blurPass == None && released == []
    {
      direction := worldDirection;
      projection := Ortho(-extent, extent, -extent, extent, near, far);
      view := LookAt(worldDirection.Negated(), Origin, Up);
      mvp := Product(projection, view);
      shadowPass := None;
      blurPass := None;
      blurSource := 0;
      inputs := map[];
      released := [];
    }

    /**
     * init: a 512x512 shadow target, a blur target of the same size, the blur screen
     * reading the shadow texture, and the lighting quad reading every given texture
     * plus "shadowMap" bound to the blur target's texture, which overrides any entry of
     * that name.
     */
    method Init(gl: Context, textureIds: map<string, nat>)
      modifies this`shadowPass, this`blurPass, this`blurSource, this`inputs, gl`nextName
      ensures Ready()
      ensures shadowPass == Some(RenderTarget(old(gl.nextName), old(gl.nextName) + 1, Size(ShadowSide, ShadowSide)))
      ensures blurPass == Some(RenderTarget(old(gl.nextName) + 2, old(gl.nextName) + 3, Size(ShadowSide, ShadowSide)))
      ensures inputs == textureIds["shadowMap" := blurPass.value.texture]
      ensures forall key :: key in textureIds && key != "shadowMap" ==> inputs[key] == textureIds[key]
      ensures gl.nextName == old(gl.nextName) + 4
    {
      var shadow := gl.CreateTarget(Size(ShadowSide, ShadowSide));
      var blur := gl.CreateTarget(shadow.size);
      shadowPass := Some(shadow);
      blurPass := Some(blur);
      blurSource := shadow.texture;
      inputs := textureIds["shadowMap" := blur.texture];
    }

    /**
     * bind: the shadow target is bound with its own viewport, the clear colour becomes
     * white and both colour and depth are cleared.
     */
    method Bind(gl: Context)
      requires Ready()
      modifies gl`bound, gl`viewport, gl`clearColour, gl`trace
      ensures gl.State() == old(gl.State()).(bound := shadowPass.value.name, viewport := shadowPass.value.size)
      ensures gl.clearColour == White
      ensures gl.trace == old(gl.trace) + [Event.Bind(shadowPass.value)] + [Clear(Some(White), true)]
    {
      var shadow := shadowPass.value;
      gl.BindTarget(shadow);
      gl.SetViewport(shadow.size);
      gl.SetClearColour(White);
      gl.ClearBuffers(true, true);
    }

    /**
     * blurAndUnbind: the shadow target is unbound, then with depth testing off the blur
     * target is bound, sized, drawn into from the shadow texture and unbound; depth
     * testing is on again at the end.
     */
    method BlurAndUnbind(gl: Context)
      requires Ready()
      modifies gl`bound, gl`viewport, gl`depthTest, gl`trace
      ensures gl.State() == old(gl.State()).(bound := DefaultFramebuffer, viewport := blurPass.value.size, depthTest := true)
      ensures gl.trace == old(gl.trace) + [Unbind(shadowPass.value)] + [Event.Bind(blurPass.value)]
        + [Issue(ShadowBlur(shadowPass.value.texture),
                 old(gl.State()).(bound := blurPass.value.name, viewport := blurPass.value.size, depthTest := false))]
        + [Unbind(blurPass.value)]
    {
      var shadow, blur := shadowPass.value, blurPass.value;
      gl.UnbindTarget(shadow);
      gl.SetDepthTest(false);
      gl.BindTarget(blur);
      gl.SetViewport(blur.size);
      gl.Draw(ShadowBlur(blurSource));
      gl.UnbindTarget(blur);
      gl.SetDepthTest(true);
    }

    /** update: a new direction and view, and the mvp recomputed from the unchanged projection. */
    method Update(newDirection: Vec3)
      modifies this`direction, this`view, this`mvp
      ensures direction == newDirection && Consistent()
      ensures projection == old(projection)
    {
      direction := newDirection;
      view := LookAt(direction.Negated(), Origin, Up);
      mvp := Product(projection, view);
    }

    /** clean: the blur target, the blur screen and the shadow target, once each, in that order. */
    method Clean()
      modifies this`released
      ensures released == old(released) + LightReleaseOrder
    {
      released := released + [BlurTarget];
      released := released + [BlurScreen];
      released := released + [ShadowTarget];
    }
  }

  /** clean releases each of the light's three resources exactly once. */
  lemma LightReleaseOnce()
    ensures |LightReleaseOrder| == 3
    ensures forall r: LightResource :: r in LightReleaseOrder
    ensures forall i, j :: 0 <= i < j < |LightReleaseOrder| ==> LightReleaseOrder[i] != LightReleaseOrder[j]
  {
    forall r: LightResource
      ensures r in LightReleaseOrder
    {
      match r
      case BlurTarget => assert LightReleaseOrder[0] == r;
      case BlurScreen => assert LightReleaseOrder[1] == r;
      case ShadowTarget => assert LightReleaseOrder[2] == r;
    }
  }
}
