/**
 * Scene objects (src/engine/scene/Object.cpp): construction, decoding from a list of
 * key/value parameters, texture and animation lists, and the per-frame animation
 * update of the model transform.
 *
 * The decoders the source calls (Codable::decodeTransformation, Codable::decodeBool,
 * Codable::decodeTexture, Animation::decode) and the resource manager's getMesh have no
 * body here: they are passed in as the functions of a `Decoders` value.
 * Animation::apply is the function each animation carries.
 */
module SceneObjects {

  import opened Wrappers
  import opened Geometry

  datatype Material = Common | PBRRegular | PBRParallax | PBRNoUVs

  /** Where a resource is loaded (Storage). */
  datatype Storage = GPU | CPU | Both

  /** A mesh resource, shared and read-only; only its bounding box matters here. */
  datatype Mesh = Mesh(name: string, bbox: BBox)

  /** A texture resource (TextureInfos), shared and read-only. */
  datatype TextureInfos = TextureInfos(name: string)

  /** An animation: `apply(model, fullTime, frameTime)` returns the next model matrix. */
  datatype Animation = Animation(apply: (Mat4, real, real) -> Mat4)

  /** A decoded scene-file entry: a key, its values and nested entries. */
  datatype KeyValues = KeyValues(key: string, values: seq<string>, elements: seq<KeyValues>)

  /** The routines Object::decode calls whose bodies are not part of this model. */
  datatype Decoders = Decoders(
    transformation: seq<KeyValues> -> Mat4,
    boolean: KeyValues -> bool,
    texture: (KeyValues, Storage) -> TextureInfos,
    animations: seq<KeyValues> -> seq<Animation>,
    mesh: (string, Storage) -> Mesh)

  /** The value of an object's fields. */
  datatype ObjectState = ObjectState(
    material: Material,
    mesh: Mesh,
    castShadow: bool,
    model: Mat4,
    textures: seq<TextureInfos>,
    animations: seq<Animation>,
    twoSided: bool,
    masked: bool)
  {
    /** Object::boundingBox: the mesh's box moved by the model transform. */
    function BoundingBox(): BBox
    {
      Transformed(mesh.bbox, model)
    }
  }

  /** The material names `decode` recognises. */
  function MaterialNamed(name: string): Option<Material>
  {
    if name == "Common" then Some(Common)
    else if name == "PBRRegular" then Some(PBRRegular)
    else if name == "PBRParallax" then Some(PBRParallax)
    else if name == "PBRNoUVs" then Some(PBRNoUVs)
    else None
  }

  // ---------------------------------------------------------------------------
  // decode, one parameter at a time.

  /** The effect of one parameter in the loop of Object::decode. */
  function DecodeParam(s: ObjectState, p: KeyValues, mode: Storage, dec: Decoders): ObjectState
  {
    if p.key == "type" && p.values != [] then
      match MaterialNamed(p.values[0])
      case Some(m) => s.(material := m)
      case None => s
    else if p.key == "mesh" && p.values != [] then
      s.(mesh := dec.mesh(p.values[0], mode))
    else if p.key == "shadows" then
      s.(castShadow := dec.boolean(p))
    else if p.key == "textures" then
      s.(textures := s.textures + DecodeTextures(p.elements, mode, dec))
    else if p.key == "animations" then
      s.(animations := dec.animations(p.elements))
    else if p.key == "twosided" then
      s.(twoSided := dec.boolean(p))
    else if p.key == "masked" then
      s.(masked := dec.boolean(p))
    else
      s
  }

  /** Each nested texture entry decoded, in order. */
  function DecodeTextures(entries: seq<KeyValues>, mode: Storage, dec: Decoders): (r: seq<TextureInfos>)
    ensures |r| == |entries|
    ensures forall i :: 0 <= i < |entries| ==> r[i] == dec.texture(entries[i], mode)
  {
    if entries == [] then []
    else DecodeTextures(entries[..|entries| - 1], mode, dec) + [dec.texture(entries[|entries| - 1], mode)]
  }

  /** What one parameter does to each field: it changes only the field its key names. */
  lemma ParamEffect(s: ObjectState, p: KeyValues, mode: Storage, dec: Decoders)
    ensures DecodeParam(s, p, mode, dec).material ==
      if p.key == "type" && p.values != [] && MaterialNamed(p.values[0]).Some? then MaterialNamed(p.values[0]).value else s.material
    ensures DecodeParam(s, p, mode, dec).mesh == if p.key == "mesh" && p.values != [] then dec.mesh(p.values[0], mode) else s.mesh
    ensures DecodeParam(s, p, mode, dec).castShadow == if p.key == "shadows" then dec.boolean(p) else s.castShadow
    ensures DecodeParam(s, p, mode, dec).twoSided == if p.key == "twosided" then dec.boolean(p) else s.twoSided
    ensures DecodeParam(s, p, mode, dec).masked == if p.key == "masked" then dec.boolean(p) else s.masked
    ensures DecodeParam(s, p, mode, dec).textures ==
      s.textures + if p.key == "textures" then DecodeTextures(p.elements, mode, dec) else []
    ensures DecodeParam(s, p, mode, dec).animations == if p.key == "animations" then dec.animations(p.elements) else s.animations
    ensures DecodeParam(s, p, mode, dec).model == s.model
  {
  }

  /** The parameters applied one after the other, first to last. */
  function DecodeAll(s: ObjectState, ps: seq<KeyValues>, mode: Storage, dec: Decoders): ObjectState
  {
    if ps == [] then s
    else DecodeParam(DecodeAll(s, ps[..|ps| - 1], mode, dec), ps[|ps| - 1], mode, dec)
  }

  // ---------------------------------------------------------------------------
  // What decoding yields, stated per field from the last parameter that sets it.

  /** What a parameter can set: the material, the mesh, or the field named by a key. */
  datatype Setter = MaterialType | MeshName | Key(key: string)

  /** Whether parameter `p` sets what `sel` names. */
  predicate Sets(p: KeyValues, sel: Setter)
  {
    match sel
    case MaterialType => p.key == "type" && p.values != [] && MaterialNamed(p.values[0]).Some?
    case MeshName => p.key == "mesh" && p.values != []
    case Key(k) => p.key == k
  }

  /** Index of the last parameter that sets `sel`. */
  function LastWhere(ps: seq<KeyValues>, sel: Setter): (r: Option<nat>)
    ensures r.Some? ==> r.value < |ps| && Sets(ps[r.value], sel)
    ensures r.Some? ==> forall j :: r.value < j < |ps| ==> !Sets(ps[j], sel)
    ensures r.None? ==> forall j :: 0 <= j < |ps| ==> !Sets(ps[j], sel)
  {
    if ps == [] then None
    else if Sets(ps[|ps| - 1], sel) then Some(|ps| - 1)
    else LastWhere(ps[..|ps| - 1], sel)
  }

  /** All textures decoded from every "textures" parameter, in parameter order. */
  function TexturesOf(ps: seq<KeyValues>, mode: Storage, dec: Decoders): seq<TextureInfos>
  {
    if ps == [] then []
    else
      var last := ps[|ps| - 1];
      TexturesOf(ps[..|ps| - 1], mode, dec)
        + (if last.key == "textures" then DecodeTextures(last.elements, mode, dec) else [])
  }

  /** The keys `decode` acts on; any other key is ignored. */
  predicate Recognised(p: KeyValues)
  {
    p.key in {"type", "mesh", "shadows", "textures", "animations", "twosided", "masked"}
  }

  /**
   * The material is the last recognised "type" value; an unknown name or a "type"
   * without values leaves it unchanged.
   */
  lemma {:induction false} DecodedMaterial(s: ObjectState, ps: seq<KeyValues>, mode: Storage, dec: Decoders)
    ensures DecodeAll(s, ps, mode, dec).material ==
      match LastWhere(ps, MaterialType)
      case Some(i) => MaterialNamed(ps[i].values[0]).value
      case None => s.material
  {
    if ps != [] {
      DecodedMaterial(s, ps[..|ps| - 1], mode, dec);
      ParamEffect(DecodeAll(s, ps[..|ps| - 1], mode, dec), ps[|ps| - 1], mode, dec);
    }
  }

  /** The mesh is looked up from the last "mesh" parameter with a value; others are ignored. */
  lemma {:induction false} DecodedMesh(s: ObjectState, ps: seq<KeyValues>, mode: Storage, dec: Decoders)
    ensures DecodeAll(s, ps, mode, dec).mesh ==
      match LastWhere(ps, MeshName)
      case Some(i) => dec.mesh(ps[i].values[0], mode)
      case None => s.mesh
  {
    if ps != [] {
      DecodedMesh(s, ps[..|ps| - 1], mode, dec);
      ParamEffect(DecodeAll(s, ps[..|ps| - 1], mode, dec), ps[|ps| - 1], mode, dec);
    }
  }

  /** The boolean field each flag key sets. */
  function Flag(s: ObjectState, key: string): bool
  {
    if key == "shadows" then s.castShadow
    else if key == "twosided" then s.twoSided
    else s.masked
  }

  /**
   * Each flag ("shadows", "twosided", "masked") is decoded from the last parameter
   * carrying its key, with or without values; without one it keeps its value.
   */
  lemma {:induction false} DecodedFlag(s: ObjectState, ps: seq<KeyValues>, key: string, mode: Storage, dec: Decoders)
    requires key == "shadows" || key == "twosided" || key == "masked"
    ensures Flag(DecodeAll(s, ps, mode, dec), key) ==
      match LastWhere(ps, Key(key))
      case Some(i) => dec.boolean(ps[i])
      case None => Flag(s, key)
  {
    if ps != [] {
      DecodedFlag(s, ps[..|ps| - 1], key, mode, dec);
      ParamEffect(DecodeAll(s, ps[..|ps| - 1], mode, dec), ps[|ps| - 1], mode, dec);
    }
  }

  /** The animation list is replaced by the last "animations" parameter, never merged. */
  lemma {:induction false} DecodedAnimations(s: ObjectState, ps: seq<KeyValues>, mode: Storage, dec: Decoders)
    ensures DecodeAll(s, ps, mode, dec).animations ==
      match LastWhere(ps, Key("animations"))
      case Some(i) => dec.animations(ps[i].elements)
      case None => s.animations
  {
    if ps != [] {
      DecodedAnimations(s, ps[..|ps| - 1], mode, dec);
      ParamEffect(DecodeAll(s, ps[..|ps| - 1], mode, dec), ps[|ps| - 1], mode, dec);
    }
  }

  /**
   * Textures accumulate: every "textures" parameter appends its decoded entries after
   * the ones already there. The loop never touches the model transform.
   */
  lemma {:induction false} DecodedTexturesAndModel(s: ObjectState, ps: seq<KeyValues>, mode: Storage, dec: Decoders)
    ensures DecodeAll(s, ps, mode, dec).textures == s.textures + TexturesOf(ps, mode, dec)
    ensures DecodeAll(s, ps, mode, dec).model == s.model
  {
    if ps != [] {
      DecodedTexturesAndModel(s, ps[..|ps| - 1], mode, dec);
      ParamEffect(DecodeAll(s, ps[..|ps| - 1], mode, dec), ps[|ps| - 1], mode, dec);
    }
  }

  /** A parameter with a key `decode` does not know changes nothing, wherever it stands. */
  lemma {:induction false} UnrecognisedIgnored(s: ObjectState, ps: seq<KeyValues>, p: KeyValues, qs: seq<KeyValues>,
                                              mode: Storage, dec: Decoders)
    requires !Recognised(p)
    ensures DecodeAll(s, ps + [p] + qs, mode, dec) == DecodeAll(s, ps + qs, mode, dec)
  {
    if qs == [] {
      assert ps + [p] + qs == ps + [p];
      assert (ps + [p])[..|ps|] == ps;
      assert ps + qs == ps;
      ParamEffect(DecodeAll(s, ps, mode, dec), p, mode, dec);
    } else {
      var n := |qs| - 1;
      var with, without := ps + [p] + qs, ps + qs;
      UnrecognisedIgnored(s, ps, p, qs[..n], mode, dec);
      assert with[..|with| - 1] == ps + [p] + qs[..n] && with[|with| - 1] == qs[n];
      assert without[..|without| - 1] == ps + qs[..n] && without[|without| - 1] == qs[n];
    }
  }

  // ---------------------------------------------------------------------------
  // Animation.

  /** The animations applied to `model` in list order (a left fold). */
  function Animate(model: Mat4, anims: seq<Animation>, fullTime: real, frameTime: real): Mat4
  {
    if anims == [] then model
    else anims[|anims| - 1].apply(Animate(model, anims[..|anims| - 1], fullTime, frameTime), fullTime, frameTime)
  }

  /** Animating with a + b is animating with a, then with b. */
  lemma {:induction false} AnimateConcat(model: Mat4, a: seq<Animation>, b: seq<Animation>, fullTime: real, frameTime: real)
    ensures Animate(model, a + b, fullTime, frameTime) ==
            Animate(Animate(model, a, fullTime, frameTime), b, fullTime, frameTime)
  {
    if b == [] {
      assert a + b == a;
    } else {
      var n := |b| - 1;
      AnimateConcat(model, a, b[..n], fullTime, frameTime);
      assert (a + b)[..|a| + n] == a + b[..n];
    }
  }

  // ---------------------------------------------------------------------------
  // The object.

  class Object {
    var material: Material
    var mesh: Mesh
    var castShadow: bool
    var model: Mat4
    var textures: seq<TextureInfos>
    var animations: seq<Animation>
    var twoSided: bool
    var masked: bool

    function State(): ObjectState
      reads this
    {
      ObjectState(material, mesh, castShadow, model, textures, animations, twoSided, masked)
    }

    /**
     * Object(type, mesh, castShadows): stores exactly the given material, mesh and
     * shadow flag; the texture and animation lists start empty. The other fields take
     * defaults declared in a header that is not part of this model.
     */
    constructor (kind: Material, mesh: Mesh, castShadows: bool)
      ensures material == kind && this.mesh == mesh && castShadow == castShadows
      ensures textures == [] && animations == []
    {
      material := kind;
      this.mesh := mesh;
      castShadow := castShadows;
      model := Identity;
      textures := [];
      animations := [];
      twoSided := false;
      masked := false;
    }

    /**
     * Object::decode: the model transform is replaced by the decoded transformation,
     * then the parameters are applied in order.
     */
    method Decode(params: KeyValues, mode: Storage, dec: Decoders)
      modifies this
      ensures State() == DecodeAll(old(State()).(model := dec.transformation(params.elements)),
                                   params.elements, mode, dec)
    {
      model := dec.transformation(params.elements);
      ghost var start := State();
      var ps := params.elements;
      var i := 0;
      while i < |ps|
        invariant 0 <= i <= |ps|
        invariant State() == DecodeAll(start, ps[..i], mode, dec)
      {
        assert ps[..i + 1][..i] == ps[..i];
        ApplyParam(ps[i], mode, dec);
        i := i + 1;
      }
      assert ps[..i] == ps;
    }

    /** One iteration of the loop in Object::decode. */
    method ApplyParam(param: KeyValues, mode: Storage, dec: Decoders)
      modifies this
      ensures State() == DecodeParam(old(State()), param, mode, dec)
    {
      ParamEffect(State(), param, mode, dec);
      if param.key == "type" && param.values != [] {
        var found := MaterialNamed(param.values[0]);
        if found.Some? {
          material := found.value;
        }
      } else if param.key == "mesh" && param.values != [] {
        mesh := dec.mesh(param.values[0], mode);
      } else if param.key == "shadows" {
        castShadow := dec.boolean(param);
      } else if param.key == "textures" {
        AddTextures(param.elements, mode, dec);
      } else if param.key == "animations" {
        animations := dec.animations(param.elements);
      } else if param.key == "twosided" {
        twoSided := dec.boolean(param);
      } else if param.key == "masked" {
        masked := dec.boolean(param);
      }
    }

    /** The inner loop of the "textures" case: each entry decoded and added in order. */
    method AddTextures(entries: seq<KeyValues>, mode: Storage, dec: Decoders)
      modifies this
      ensures State() == old(State()).(textures := old(textures) + DecodeTextures(entries, mode, dec))
    {
      var j := 0;
      while j < |entries|
        invariant 0 <= j <= |entries|
        invariant State() == old(State()).(textures := old(textures) + DecodeTextures(entries[..j], mode, dec))
      {
        assert entries[..j + 1][..j] == entries[..j];
        AddTexture(dec.texture(entries[j], mode));
        j := j + 1;
      }
      assert entries[..j] == entries;
    }

    /** addTexture: appends one texture after the existing ones. */
    method AddTexture(infos: TextureInfos)
      modifies this
      ensures State() == old(State()).(textures := old(textures) + [infos])
    {
      textures := textures + [infos];
    }

    /** addAnimation: appends one animation; decode's "animations" replaces the list instead. */
    method AddAnimation(anim: Animation)
      modifies this
      ensures State() == old(State()).(animations := old(animations) + [anim])
    {
      animations := animations + [anim];
    }

    /**
     * Object::update: the model becomes the left fold of the animations over it, in
     * list order; with no animations it is unchanged. Nothing else changes.
     */
    method Update(fullTime: real, frameTime: real)
      modifies this
      ensures State() == old(State()).(model := Animate(old(model), animations, fullTime, frameTime))
    {
      var m := model;
      var i := 0;
      while i < |animations|
        invariant 0 <= i <= |animations|
        invariant m == Animate(model, animations[..i], fullTime, frameTime)
      {
        assert animations[..i + 1][..i] == animations[..i];
        m := animations[i].apply(m, fullTime, frameTime);
        i := i + 1;
      }
      assert animations[..i] == animations;
      model := m;
    }
  }
}
