/**
 * The resource registry and draw-state submission of SceneManager.cpp.
 *
 * Textures live in a fixed array with a fill counter; materials in a growing
 * list. The image decoder and glGenTextures are replaced by parameters (the
 * decode outcome and the fresh GL name); GL calls and shader-manager calls are
 * appended to two logs instead of being performed.
 */
module Scene {
  import opened Gfx

  /** An OpenGL object name (GLuint). */
  type GLuint = x: int | 0 <= x < 0x1_0000_0000

  /** The int a GLuint becomes when returned from a function declared `int`. */
  function AsInt32(id: GLuint): (r: int)
    ensures -0x8000_0000 <= r < 0x8000_0000
    ensures (r - id) % 0x1_0000_0000 == 0
    ensures id < 0x8000_0000 ==> r == id
  {
    if id < 0x8000_0000 then id else id - 0x1_0000_0000
  }

  datatype TextureEntry = TextureEntry(id: GLuint, tag: string)

  datatype Material = Material(tag: string, diffuseColor: Vec3, specularColor: Vec3, shininess: real)

  /** What stbi_load gives back: nothing, or an image with its channel count. */
  datatype DecodeOutcome = DecodeFailed | Image(width: int, height: int, channels: int)

  /** Only decoded RGB and RGBA images are uploaded and registered. */
  predicate Uploadable(d: DecodeOutcome)
  {
    d.Image? && (d.channels == 3 || d.channels == 4)
  }

  datatype TexParam = WrapSRepeat | WrapTRepeat | MinFilterLinear | MagFilterLinear
  datatype PixelFormat = Rgb8 | Rgba8

  /** The GL calls the registry makes, in the order it makes them. */
  datatype GlEvent =
    | GenTexture(generated: GLuint)
    | BindTexture2D(bound: GLuint)        // 0 unbinds
    | TexParameter(param: TexParam)
    | TexImage2D(format: PixelFormat, width: int, height: int)
    | GenerateMipmap
    | ActiveTexture(unit: int)            // GL_TEXTURE0 + unit
    | DeleteTexture(deleted: GLuint)

  // Uniform names used by the draw-state setters.
  const ModelName := "model"
  const ColorValueName := "objectColor"
  const TextureValueName := "objectTexture"
  const UseTextureName := "bUseTexture"
  const UVScaleName := "UVscale"
  const DiffuseName := "material.diffuseColor"
  const SpecularName := "material.specularColor"
  const ShininessName := "material.shininess"

  /** The tags LoadSceneTextures registers, in call order. */
  const SceneTextureTags: seq<string> :=
    ["pot", "wood", "woodie", "coaster", "toptable", "bottomtable", "napkin", "wall"]

  // ---------------------------------------------------------------------------
  // First-match lookups

  /** Index of the first entry at or after `from` carrying `tag`, or -1. */
  function SlotFrom(entries: seq<TextureEntry>, tag: string, from: nat): (r: int)
    requires from <= |entries|
    decreases |entries| - from
    ensures r == -1 || from <= r < |entries|
    ensures r == -1 <==> forall j :: from <= j < |entries| ==> entries[j].tag != tag
    ensures r != -1 ==> entries[r].tag == tag && forall j :: from <= j < r ==> entries[j].tag != tag
  {
    if from == |entries| then -1
    else if entries[from].tag == tag then from
    else SlotFrom(entries, tag, from + 1)
  }

  /** The slot of the first registered texture with `tag`, or the sentinel -1. */
  function FirstSlot(entries: seq<TextureEntry>, tag: string): (r: int)
    ensures -1 <= r < |entries|
    ensures r == -1 <==> forall j :: 0 <= j < |entries| ==> entries[j].tag != tag
    ensures 0 <= r ==> entries[r].tag == tag && forall j :: 0 <= j < r ==> entries[j].tag != tag
  {
    SlotFrom(entries, tag, 0)
  }

  /** What FindTextureID returns: the GL name of the first match as an int, or -1. */
  function TextureIdOf(entries: seq<TextureEntry>, tag: string): int
  {
    var slot := FirstSlot(entries, tag);
    if slot == -1 then -1 else AsInt32(entries[slot].id)
  }

  /** Index of the first material at or after `from` carrying `tag`, or -1. */
  function MaterialIndexFrom(materials: seq<Material>, tag: string, from: nat): (r: int)
    requires from <= |materials|
    decreases |materials| - from
    ensures r == -1 || from <= r < |materials|
    ensures r == -1 <==> forall j :: from <= j < |materials| ==> materials[j].tag != tag
    ensures r != -1 ==> materials[r].tag == tag && forall j :: from <= j < r ==> materials[j].tag != tag
  {
    if from == |materials| then -1
    else if materials[from].tag == tag then from
    else MaterialIndexFrom(materials, tag, from + 1)
  }

  /** The first material with `tag`, copied out, or None. */
  function FirstMaterial(materials: seq<Material>, tag: string): (r: Option<Material>)
    ensures r.None? <==> forall j :: 0 <= j < |materials| ==> materials[j].tag != tag
    ensures r.Some? ==> r.value.tag == tag
  {
    var i := MaterialIndexFrom(materials, tag, 0);
    if i == -1 then None else Some(materials[i])
  }

  // ---------------------------------------------------------------------------
  // GL call sequences

  /** The GL calls CreateGLTexture makes for one decode outcome. */
  function UploadEvents(decode: DecodeOutcome, id: GLuint): seq<GlEvent>
  {
    match decode
    case DecodeFailed => []
    case Image(w, h, c) =>
      if c == 3 then SetupEvents(id) + [TexImage2D(Rgb8, w, h), GenerateMipmap, BindTexture2D(0)]
      else if c == 4 then SetupEvents(id) + [TexImage2D(Rgba8, w, h), GenerateMipmap, BindTexture2D(0)]
      else SetupEvents(id)
  }

  /** Generate a name, bind it, and set repeat wrapping and linear filtering. */
  function SetupEvents(id: GLuint): seq<GlEvent>
  {
    [GenTexture(id), BindTexture2D(id),
     TexParameter(WrapSRepeat), TexParameter(WrapTRepeat),
     TexParameter(MinFilterLinear), TexParameter(MagFilterLinear)]
  }

  /** Unit i is made active, then entry i's texture is bound to it, for each i in order. */
  function BindSequence(entries: seq<TextureEntry>): (r: seq<GlEvent>)
    ensures |r| == 2 * |entries|
  {
    if entries == [] then []
    else
      var n := |entries| - 1;
      BindSequence(entries[..n]) + [ActiveTexture(n), BindTexture2D(entries[n].id)]
  }

  /** One glDeleteTextures per registered entry, in order. */
  function DeleteSequence(entries: seq<TextureEntry>): (r: seq<GlEvent>)
    ensures |r| == |entries|
  {
    if entries == [] then []
    else
      var n := |entries| - 1;
      DeleteSequence(entries[..n]) + [DeleteTexture(entries[n].id)]
  }

  // ---------------------------------------------------------------------------
  // LoadSceneTextures as a whole: the first k of its calls

  /** The entries the first k CreateGLTexture calls of a load register. */
  function StoredUpTo(decodes: seq<DecodeOutcome>, ids: seq<GLuint>, tags: seq<string>, k: nat): (r: seq<TextureEntry>)
    requires k <= |decodes| && k <= |ids| && k <= |tags|
    ensures |r| <= k
  {
    if k == 0 then []
    else
      StoredUpTo(decodes, ids, tags, k - 1)
      + (if Uploadable(decodes[k - 1]) then [TextureEntry(ids[k - 1], tags[k - 1])] else [])
  }

  /** The GL calls the first k CreateGLTexture calls of a load make. */
  function UploadsUpTo(decodes: seq<DecodeOutcome>, ids: seq<GLuint>, k: nat): seq<GlEvent>
    requires k <= |decodes| && k <= |ids|
  {
    if k == 0 then [] else UploadsUpTo(decodes, ids, k - 1) + UploadEvents(decodes[k - 1], ids[k - 1])
  }

  /** Number of uploadable outcomes among the first k. */
  function UploadableCount(decodes: seq<DecodeOutcome>, k: nat): nat
    requires k <= |decodes|
  {
    if k == 0 then 0 else UploadableCount(decodes, k - 1) + (if Uploadable(decodes[k - 1]) then 1 else 0)
  }

  /** The scene's Phong materials, in the order DefineObjectMaterials pushes them. */
  function SceneMaterials(): seq<Material>
  {
    [ Material("grayMatte", Vec3(0.45, 0.45, 0.45), Vec3(0.1, 0.1, 0.1), 2.0),
      Material("ceramic", Vec3(0.95, 0.93, 0.90), Vec3(0.20, 0.20, 0.19), 12.0),
      Material("wood", Vec3(0.6, 0.4, 0.2), Vec3(0.15, 0.1, 0.05), 8.0),
      Material("woodie", Vec3(0.55, 0.35, 0.18), Vec3(0.2, 0.15, 0.08), 12.0),
      Material("lightWood", Vec3(0.75, 0.65, 0.50), Vec3(0.1, 0.1, 0.08), 4.0),
      Material("darkMetal", Vec3(0.08, 0.08, 0.08), Vec3(0.6, 0.6, 0.6), 32.0),
      Material("counter", Vec3(0.82, 0.78, 0.72), Vec3(0.92, 0.90, 0.88), 128.0),
      Material("tableTop", Vec3(0.80, 0.76, 0.70), Vec3(0.98, 0.97, 0.95), 256.0),
      Material("metal", Vec3(0.5, 0.5, 0.5), Vec3(0.6, 0.6, 0.6), 24.0),
      Material("foliage", Vec3(0.16, 0.46, 0.14), Vec3(0.12, 0.22, 0.10), 14.0),
      Material("bark", Vec3(0.30, 0.24, 0.18), Vec3(0.05, 0.04, 0.03), 2.0),
      Material("soil", Vec3(0.25, 0.18, 0.10), Vec3(0.02, 0.02, 0.02), 1.0),
      Material("napkin", Vec3(0.95, 0.95, 0.93), Vec3(0.10, 0.10, 0.10), 4.0),
      Material("wall", Vec3(0.95, 0.95, 0.90), Vec3(0.02, 0.02, 0.02), 1.0),
      Material("cabinetWhite", Vec3(0.78, 0.78, 0.77), Vec3(0.12, 0.12, 0.11), 12.0),
      Material("stainless", Vec3(0.40, 0.40, 0.41), Vec3(0.55, 0.55, 0.56), 48.0),
      Material("fridgeHandle", Vec3(0.14, 0.14, 0.14), Vec3(0.35, 0.35, 0.35), 32.0) ]
  }

  // ---------------------------------------------------------------------------
  // The scene manager

  class SceneManager {
    /** Whether m_pShaderManager is non-null; only the destructor changes it. */
    const shaderPresent: bool
    /** m_textureIDs: its length is the capacity declared in the header. */
    const textureIDs: array<TextureEntry>
    /** m_loadedTextures: the number of filled entries of textureIDs. */
    var loadedTextures: nat
    /** m_objectMaterials. */
    var objectMaterials: seq<Material>
    /** Every uniform written through the shader manager, oldest first. */
    var uniforms: seq<UniformWrite>
    /** Every GL call made, oldest first. */
    var glLog: seq<GlEvent>

    ghost predicate Valid()
      reads this
    {
      loadedTextures <= textureIDs.Length
    }

    /** The registered textures; the index of an entry is its texture slot. */
    ghost function Entries(): (r: seq<TextureEntry>)
      reads this, textureIDs
      requires Valid()
      ensures |r| == loadedTextures
    {
      textureIDs[..loadedTextures]
    }

    constructor (shaderPresent: bool, capacity: nat)
      ensures Valid() && fresh(textureIDs) && textureIDs.Length == capacity
      ensures this.shaderPresent == shaderPresent
      ensures loadedTextures == 0 && Entries() == []
      ensures objectMaterials == [] && uniforms == [] && glLog == []
    {
      this.shaderPresent := shaderPresent;
      textureIDs := new TextureEntry[capacity];
      loadedTextures := 0;
      objectMaterials := [];
      uniforms := [];
      glLog := [];
    }

    /**
     * Uploads a decoded image and registers it under `tag` at the next slot.
     * `freshId` is the name glGenTextures hands out; it is generated (and
     * leaked) even when the channel count is then refused.
     */
    method CreateGLTexture(decode: DecodeOutcome, freshId: GLuint, tag: string) returns (ok: bool)
      requires Valid()
      requires Uploadable(decode) ==> loadedTextures < textureIDs.Length
      modifies this`loadedTextures, this`glLog, textureIDs
      ensures Valid()
      ensures ok == Uploadable(decode)
      ensures ok ==> loadedTextures == old(loadedTextures) + 1
      ensures ok ==> textureIDs[..] == old(textureIDs[..])[old(loadedTextures) := TextureEntry(freshId, tag)]
      ensures !ok ==> loadedTextures == old(loadedTextures) && textureIDs[..] == old(textureIDs[..])
      ensures Entries() == if ok then old(Entries()) + [TextureEntry(freshId, tag)] else old(Entries())
      ensures glLog == old(glLog) + UploadEvents(decode, freshId)
    {
      if decode.DecodeFailed? {
        return false;
      }
      glLog := glLog + [GenTexture(freshId), BindTexture2D(freshId)];
      glLog := glLog + [TexParameter(WrapSRepeat), TexParameter(WrapTRepeat)];
      glLog := glLog + [TexParameter(MinFilterLinear), TexParameter(MagFilterLinear)];
      assert glLog == old(glLog) + SetupEvents(freshId);
      var format;
      if decode.channels == 3 {
        format := Rgb8;
      } else if decode.channels == 4 {
        format := Rgba8;
      } else {
        return false;
      }
      glLog := glLog + [TexImage2D(format, decode.width, decode.height), GenerateMipmap, BindTexture2D(0)];
      AppendAssociates(old(glLog), SetupEvents(freshId), [TexImage2D(format, decode.width, decode.height), GenerateMipmap, BindTexture2D(0)]);
      textureIDs[loadedTextures] := TextureEntry(freshId, tag);
      loadedTextures := loadedTextures + 1;
      ok := true;
    }

    /** Binds texture unit i to entry i for every registered entry, in order. */
    method BindGLTextures()
      requires Valid()
      modifies this`glLog
      ensures glLog == old(glLog) + BindSequence(Entries())
    {
      var i := 0;
      while i < loadedTextures
        invariant 0 <= i <= loadedTextures
        invariant glLog == old(glLog) + BindSequence(Entries()[..i])
      {
        assert Entries()[..i + 1][..i] == Entries()[..i];
        glLog := glLog + [ActiveTexture(i), BindTexture2D(textureIDs[i].id)];
        i := i + 1;
      }
      assert Entries()[..i] == Entries();
    }

    /** Deletes every registered texture; the count and the entries stay as they are. */
    method DestroyGLTextures()
      requires Valid()
      modifies this`glLog
      ensures glLog == old(glLog) + DeleteSequence(Entries())
      ensures loadedTextures == old(loadedTextures)
    {
      var i := 0;
      while i < loadedTextures
        invariant 0 <= i <= loadedTextures
        invariant glLog == old(glLog) + DeleteSequence(Entries()[..i])
      {
        assert Entries()[..i + 1][..i] == Entries()[..i];
        glLog := glLog + [DeleteTexture(textureIDs[i].id)];
        i := i + 1;
      }
      assert Entries()[..i] == Entries();
    }

    /** The GL name of the first texture tagged `tag`, as an int, or -1. */
    method FindTextureID(tag: string) returns (id: int)
      requires Valid()
      ensures id == TextureIdOf(Entries(), tag)
    {
      var i := 0;
      while i < loadedTextures
        invariant 0 <= i <= loadedTextures
        invariant SlotFrom(Entries(), tag, i) == FirstSlot(Entries(), tag)
      {
        if textureIDs[i].tag == tag {
          return AsInt32(textureIDs[i].id);
        }
        i := i + 1;
      }
      return -1;
    }

    /** The slot (texture unit) of the first texture tagged `tag`, or -1. */
    method FindTextureSlot(tag: string) returns (slot: int)
      requires Valid()
      ensures -1 <= slot < loadedTextures
      ensures slot == FirstSlot(Entries(), tag)
    {
      var i := 0;
      while i < loadedTextures
        invariant 0 <= i <= loadedTextures
        invariant SlotFrom(Entries(), tag, i) == FirstSlot(Entries(), tag)
      {
        if textureIDs[i].tag == tag {
          return i;
        }
        i := i + 1;
      }
      return -1;
    }

    /**
     * Copies the first material tagged `tag` into the out-parameter. On a miss
     * the out-parameter keeps the value the caller passed in (`material`).
     */
    method FindMaterial(tag: string, material: Material) returns (found: bool, result: Material)
      ensures found <==> exists j :: 0 <= j < |objectMaterials| && objectMaterials[j].tag == tag
      ensures found ==> result == FirstMaterial(objectMaterials, tag).value
      ensures !found ==> result == material
    {
      var i := 0;
      while i < |objectMaterials|
        invariant 0 <= i <= |objectMaterials|
        invariant MaterialIndexFrom(objectMaterials, tag, i) == MaterialIndexFrom(objectMaterials, tag, 0)
      {
        if objectMaterials[i].tag == tag {
          return true, objectMaterials[i];
        }
        i := i + 1;
      }
      return false, material;
    }

    /** Pushes the model matrix translate * rotateZ * rotateY * rotateX * scale. */
    method SetTransformations(scaleXYZ: Vec3, xDegrees: real, yDegrees: real, zDegrees: real, positionXYZ: Vec3)
      modifies this`uniforms
      ensures !shaderPresent ==> uniforms == old(uniforms)
      ensures shaderPresent ==> uniforms == old(uniforms) + [UniformWrite(ModelName, Mat4Value(Product(
        [Translate(positionXYZ), RotateZ(zDegrees), RotateY(yDegrees), RotateX(xDegrees), Scale(scaleXYZ)])))]
    {
      var model := Product([Translate(positionXYZ), RotateZ(zDegrees), RotateY(yDegrees),
                            RotateX(xDegrees), Scale(scaleXYZ)]);
      if shaderPresent {
        uniforms := uniforms + [UniformWrite(ModelName, Mat4Value(model))];
      }
    }

    /** Switches to flat colour: texturing off, then the RGBA colour. */
    method SetShaderColor(red: real, green: real, blue: real, alpha: real)
      modifies this`uniforms
      ensures !shaderPresent ==> uniforms == old(uniforms)
      ensures shaderPresent ==>
        uniforms == old(uniforms) + [UniformWrite(UseTextureName, IntValue(0)),
                                     UniformWrite(ColorValueName, Vec4Value(Vec4(red, green, blue, alpha)))]
    {
      var color := Vec4(red, green, blue, alpha);
      if shaderPresent {
        uniforms := uniforms + [UniformWrite(UseTextureName, IntValue(0))];
        uniforms := uniforms + [UniformWrite(ColorValueName, Vec4Value(color))];
      }
    }

    /** Switches to texturing: texturing on, then the sampler unit of `textureTag` (-1 if unknown). */
    method SetShaderTexture(textureTag: string)
      requires Valid()
      modifies this`uniforms
      ensures !shaderPresent ==> uniforms == old(uniforms)
      ensures shaderPresent ==>
        uniforms == old(uniforms) + [UniformWrite(UseTextureName, IntValue(1)),
                                     UniformWrite(TextureValueName, Sampler2DValue(FirstSlot(Entries(), textureTag)))]
    {
      if shaderPresent {
        uniforms := uniforms + [UniformWrite(UseTextureName, IntValue(1))];
        var slot := FindTextureSlot(textureTag);
        uniforms := uniforms + [UniformWrite(TextureValueName, Sampler2DValue(slot))];
      }
    }

    /** Sets how often the texture tiles in u and v. */
    method SetTextureUVScale(u: real, v: real)
      modifies this`uniforms
      ensures !shaderPresent ==> uniforms == old(uniforms)
      ensures shaderPresent ==> uniforms == old(uniforms) + [UniformWrite(UVScaleName, Vec2Value(Vec2(u, v)))]
    {
      if shaderPresent {
        uniforms := uniforms + [UniformWrite(UVScaleName, Vec2Value(Vec2(u, v)))];
      }
    }

    /**
     * Pushes diffuse, specular and shininess of the first material tagged
     * `materialTag`; an unknown tag writes nothing, so the previous material stays.
     * The shader manager is used without a null check, so a hit needs one.
     */
    method SetShaderMaterial(materialTag: string)
      requires FirstMaterial(objectMaterials, materialTag).Some? ==> shaderPresent
      modifies this`uniforms
      ensures FirstMaterial(objectMaterials, materialTag).None? ==> uniforms == old(uniforms)
      ensures FirstMaterial(objectMaterials, materialTag).Some? ==>
        var m := FirstMaterial(objectMaterials, materialTag).value;
        uniforms == old(uniforms)
          + [UniformWrite(DiffuseName, Vec3Value(m.diffuseColor)),
             UniformWrite(SpecularName, Vec3Value(m.specularColor)),
             UniformWrite(ShininessName, FloatValue(m.shininess))]
    {
      var found, material := FindMaterial(materialTag, Material("", Vec3(0.0, 0.0, 0.0), Vec3(0.0, 0.0, 0.0), 0.0));
      if found {
        uniforms := uniforms + [UniformWrite(DiffuseName, Vec3Value(material.diffuseColor))];
        uniforms := uniforms + [UniformWrite(SpecularName, Vec3Value(material.specularColor))];
        uniforms := uniforms + [UniformWrite(ShininessName, FloatValue(material.shininess))];
      }
    }

    /** Appends the scene's materials, in order, to the material list. */
    method DefineObjectMaterials()
      modifies this`objectMaterials
      ensures objectMaterials == old(objectMaterials) + SceneMaterials()
    {
      objectMaterials := objectMaterials + SceneMaterials();
    }

    /**
     * Tries the eight scene textures in order, ignoring failures, then binds
     * what was registered. `decodes[k]` and `ids[k]` are the decoder's outcome
     * and the fresh GL name for the k-th call.
     */
    method LoadSceneTextures(decodes: seq<DecodeOutcome>, ids: seq<GLuint>)
      requires Valid()
      requires |decodes| == |SceneTextureTags| && |ids| == |SceneTextureTags|
      requires loadedTextures + |StoredUpTo(decodes, ids, SceneTextureTags, |decodes|)| <= textureIDs.Length
      modifies this`loadedTextures, this`glLog, textureIDs
      ensures Valid()
      ensures Entries() == old(Entries()) + StoredUpTo(decodes, ids, SceneTextureTags, |decodes|)
      ensures glLog == old(glLog) + UploadsUpTo(decodes, ids, |decodes|) + BindSequence(Entries())
    {
      var tags := SceneTextureTags;
      ghost var e0, g0 := Entries(), glLog;
      LoadTextureAt(decodes, ids, tags, 0, e0, g0);   // "pot"
      LoadTextureAt(decodes, ids, tags, 1, e0, g0);   // "wood"
      LoadTextureAt(decodes, ids, tags, 2, e0, g0);   // "woodie"
      LoadTextureAt(decodes, ids, tags, 3, e0, g0);   // "coaster"
      LoadTextureAt(decodes, ids, tags, 4, e0, g0);   // "toptable"
      LoadTextureAt(decodes, ids, tags, 5, e0, g0);   // "bottomtable"
      LoadTextureAt(decodes, ids, tags, 6, e0, g0);   // "napkin"
      LoadTextureAt(decodes, ids, tags, 7, e0, g0);   // "wall"
      BindGLTextures();
    }

    /** The k-th CreateGLTexture call of a load: image k under tag k, its result ignored. */
    method LoadTextureAt(decodes: seq<DecodeOutcome>, ids: seq<GLuint>, tags: seq<string>, k: nat,
                         ghost e0: seq<TextureEntry>, ghost g0: seq<GlEvent>)
      requires Valid()
      requires |decodes| == |ids| == |tags| && k < |tags|
      requires e0 + StoredUpTo(decodes, ids, tags, k) == Entries()
      requires g0 + UploadsUpTo(decodes, ids, k) == glLog
      requires |e0| + |StoredUpTo(decodes, ids, tags, |tags|)| <= textureIDs.Length
      modifies this`loadedTextures, this`glLog, textureIDs
      ensures Valid()
      ensures Entries() == e0 + StoredUpTo(decodes, ids, tags, k + 1)
      ensures glLog == g0 + UploadsUpTo(decodes, ids, k + 1)
    {
      LoadFits(decodes, ids, tags, k);
      ghost var before, logBefore := Entries(), glLog;
      var _ := CreateGLTexture(decodes[k], ids[k], tags[k]);
      LoadStep(decodes, ids, tags, k, e0, g0, before, Entries(), logBefore, glLog);
    }
  }

  // ---------------------------------------------------------------------------
  // Lemmas

  /** A prefix of a load never registers more than the whole load. */
  lemma {:induction false} StoredGrows(decodes: seq<DecodeOutcome>, ids: seq<GLuint>, tags: seq<string>, j: nat, k: nat)
    requires j <= k <= |decodes| && k <= |ids| && k <= |tags|
    ensures |StoredUpTo(decodes, ids, tags, j)| <= |StoredUpTo(decodes, ids, tags, k)|
    decreases k - j
  {
    if j < k {
      StoredGrows(decodes, ids, tags, j, k - 1);
    }
  }

  /** Call k of a load finds room when the whole load does. */
  lemma LoadFits(decodes: seq<DecodeOutcome>, ids: seq<GLuint>, tags: seq<string>, k: nat)
    requires |decodes| == |ids| == |tags| && k < |tags|
    ensures Uploadable(decodes[k]) ==>
      |StoredUpTo(decodes, ids, tags, k)| < |StoredUpTo(decodes, ids, tags, |tags|)|
  {
    StoredGrows(decodes, ids, tags, k + 1, |tags|);
  }

  /** One more call of a load extends the registered entries and the GL log by its own share. */
  lemma LoadStep(decodes: seq<DecodeOutcome>, ids: seq<GLuint>, tags: seq<string>, k: nat,
                 e0: seq<TextureEntry>, g0: seq<GlEvent>,
                 before: seq<TextureEntry>, after: seq<TextureEntry>, logBefore: seq<GlEvent>, logAfter: seq<GlEvent>)
    requires |decodes| == |ids| == |tags| && k < |tags|
    requires e0 + StoredUpTo(decodes, ids, tags, k) == before
    requires g0 + UploadsUpTo(decodes, ids, k) == logBefore
    requires after == if Uploadable(decodes[k]) then before + [TextureEntry(ids[k], tags[k])] else before
    requires logAfter == logBefore + UploadEvents(decodes[k], ids[k])
    ensures after == e0 + StoredUpTo(decodes, ids, tags, k + 1)
    ensures logAfter == g0 + UploadsUpTo(decodes, ids, k + 1)
  {
    var added := if Uploadable(decodes[k]) then [TextureEntry(ids[k], tags[k])] else [];
    assert after == (e0 + StoredUpTo(decodes, ids, tags, k)) + added;
    AppendAssociates(g0, UploadsUpTo(decodes, ids, k), UploadEvents(decodes[k], ids[k]));
  }

  /** No two of the given tags are equal. */
  predicate DistinctTags(tags: seq<string>)
  {
    forall i, j :: 0 <= i < j < |tags| ==> tags[i] != tags[j]
  }

  /** A match at i with none before it is the first slot. */
  lemma FirstSlotIs(entries: seq<TextureEntry>, tag: string, i: nat)
    requires i < |entries| && entries[i].tag == tag
    requires forall j :: 0 <= j < i ==> entries[j].tag != tag
    ensures FirstSlot(entries, tag) == i
  {
    assert FirstSlot(entries, tag) != -1;
  }

  /**
   * Registering more textures never changes what an already registered tag
   * resolves to; a tag new to the registry resolves into the appended part.
   */
  lemma FirstSlotAppend(a: seq<TextureEntry>, b: seq<TextureEntry>, tag: string)
    ensures FirstSlot(a + b, tag) ==
      if FirstSlot(a, tag) != -1 then FirstSlot(a, tag)
      else if FirstSlot(b, tag) == -1 then -1
      else |a| + FirstSlot(b, tag)
  {
    var ab := a + b;
    var ra, rb := FirstSlot(a, tag), FirstSlot(b, tag);
    if ra != -1 {
      FirstSlotIs(ab, tag, ra);
    } else if rb != -1 {
      assert forall j :: 0 <= j < |a| + rb ==> ab[j].tag != tag by {
        forall j | 0 <= j < |a| + rb ensures ab[j].tag != tag {
          if j >= |a| { assert ab[j] == b[j - |a|]; }
        }
      }
      FirstSlotIs(ab, tag, |a| + rb);
    } else {
      assert forall j :: 0 <= j < |ab| ==> ab[j].tag != tag by {
        forall j | 0 <= j < |ab| ensures ab[j].tag != tag {
          if j >= |a| { assert ab[j] == b[j - |a|]; }
        }
      }
    }
  }

  /**
   * FindTextureID's -1 coincides with FindTextureSlot's -1 as long as every
   * registered GL name fits in a non-negative int; otherwise the first match's
   * name is returned.
   */
  lemma TextureIdMatchesSlot(entries: seq<TextureEntry>, tag: string)
    requires forall i :: 0 <= i < |entries| ==> entries[i].id < 0x8000_0000
    ensures TextureIdOf(entries, tag) == -1 <==> FirstSlot(entries, tag) == -1
    ensures FirstSlot(entries, tag) != -1 ==> TextureIdOf(entries, tag) == entries[FirstSlot(entries, tag)].id
  {
  }

  /** The GL name 0xFFFFFFFF reads back as -1, indistinguishable from "not found". */
  lemma LargestNameReadsAsSentinel()
    ensures TextureIdOf([TextureEntry(0xFFFF_FFFF, "pot")], "pot") == -1
    ensures FirstSlot([TextureEntry(0xFFFF_FFFF, "pot")], "pot") == 0
  {
    FirstSlotIs([TextureEntry(0xFFFF_FFFF, "pot")], "pot", 0);
  }

  /** Unit i is activated at position 2i and entry i's name bound at 2i + 1. */
  lemma {:induction false} BindSequenceAt(entries: seq<TextureEntry>, i: nat)
    requires i < |entries|
    ensures BindSequence(entries)[2 * i] == ActiveTexture(i)
    ensures BindSequence(entries)[2 * i + 1] == BindTexture2D(entries[i].id)
  {
    var n := |entries| - 1;
    if i < n {
      BindSequenceAt(entries[..n], i);
      assert entries[..n][i] == entries[i];
    }
  }

  /** The i-th deletion frees entry i's GL name. */
  lemma {:induction false} DeleteSequenceAt(entries: seq<TextureEntry>, i: nat)
    requires i < |entries|
    ensures DeleteSequence(entries)[i] == DeleteTexture(entries[i].id)
  {
    var n := |entries| - 1;
    if i < n {
      DeleteSequenceAt(entries[..n], i);
      assert entries[..n][i] == entries[i];
    }
  }

  /**
   * The GL calls of one upload: nothing for a failed decode; for a supported
   * image one name generated and the texture unbound at the end; for any other
   * channel count the name is generated, never deleted, and left bound.
   */
  lemma UploadEventsShape(decode: DecodeOutcome, id: GLuint)
    ensures decode.DecodeFailed? ==> UploadEvents(decode, id) == []
    ensures Uploadable(decode) ==>
      UploadEvents(decode, id)[0] == GenTexture(id)
      && UploadEvents(decode, id)[|UploadEvents(decode, id)| - 1] == BindTexture2D(0)
    ensures decode.Image? && !Uploadable(decode) ==>
      GenTexture(id) in UploadEvents(decode, id)
      && DeleteTexture(id) !in UploadEvents(decode, id)
      && UploadEvents(decode, id)[|UploadEvents(decode, id)| - 1] != BindTexture2D(0)
  {
  }

  /** A load registers exactly as many textures as it had uploadable images. */
  lemma {:induction false} StoredCount(decodes: seq<DecodeOutcome>, ids: seq<GLuint>, tags: seq<string>, k: nat)
    requires k <= |decodes| && k <= |ids| && k <= |tags|
    ensures |StoredUpTo(decodes, ids, tags, k)| == UploadableCount(decodes, k)
  {
    if k > 0 {
      StoredCount(decodes, ids, tags, k - 1);
    }
  }

  /** A tag none of the first k calls used is not registered by them. */
  lemma {:induction false} UnusedTagNotStored(decodes: seq<DecodeOutcome>, ids: seq<GLuint>, tags: seq<string>, k: nat, tag: string)
    requires k <= |decodes| && k <= |ids| && k <= |tags|
    requires forall i :: 0 <= i < k ==> tags[i] != tag
    ensures FirstSlot(StoredUpTo(decodes, ids, tags, k), tag) == -1
  {
    if k > 0 {
      UnusedTagNotStored(decodes, ids, tags, k - 1, tag);
      var last := if Uploadable(decodes[k - 1]) then [TextureEntry(ids[k - 1], tags[k - 1])] else [];
      FirstSlotAppend(StoredUpTo(decodes, ids, tags, k - 1), last, tag);
    }
  }

  /**
   * With distinct tags, the j-th texture of a load ends up in the slot equal to
   * the number of uploadable images before it, and a failed one is not found.
   */
  lemma {:induction false} LoadedSlot(decodes: seq<DecodeOutcome>, ids: seq<GLuint>, tags: seq<string>, n: nat, j: nat)
    requires n <= |decodes| && n <= |ids| && n <= |tags|
    requires DistinctTags(tags) && j < n
    ensures Uploadable(decodes[j]) ==> FirstSlot(StoredUpTo(decodes, ids, tags, n), tags[j]) == UploadableCount(decodes, j)
    ensures !Uploadable(decodes[j]) ==> FirstSlot(StoredUpTo(decodes, ids, tags, n), tags[j]) == -1
  {
    var prefix := StoredUpTo(decodes, ids, tags, n - 1);
    var last := if Uploadable(decodes[n - 1]) then [TextureEntry(ids[n - 1], tags[n - 1])] else [];
    assert StoredUpTo(decodes, ids, tags, n) == prefix + last;
    FirstSlotAppend(prefix, last, tags[j]);
    if j < n - 1 {
      LoadedSlot(decodes, ids, tags, n - 1, j);
      if !Uploadable(decodes[j]) && last != [] {
        assert last[0].tag != tags[j];
        assert FirstSlot(last, tags[j]) == -1;
      }
    } else {
      UnusedTagNotStored(decodes, ids, tags, n - 1, tags[j]);
      StoredCount(decodes, ids, tags, n - 1);
      if Uploadable(decodes[j]) {
        FirstSlotIs(last, tags[j], 0);
      }
    }
  }

  /** Each load call adds at most one to the count, so a skipped image shifts all later slots down. */
  lemma {:induction false} UploadableCountBound(decodes: seq<DecodeOutcome>, j: nat, i: nat)
    requires i < j <= |decodes|
    ensures UploadableCount(decodes, j) <= j
    ensures !Uploadable(decodes[i]) ==> UploadableCount(decodes, j) < j
  {
    if j - 1 > i {
      UploadableCountBound(decodes, j - 1, i);
    } else {
      CountAtMost(decodes, j - 1);
    }
  }

  lemma {:induction false} CountAtMost(decodes: seq<DecodeOutcome>, k: nat)
    requires k <= |decodes|
    ensures UploadableCount(decodes, k) <= k
  {
    if k > 0 {
      CountAtMost(decodes, k - 1);
    }
  }

  /** The eight scene texture tags are pairwise different. */
  lemma SceneTextureTagsDistinct()
    ensures DistinctTags(SceneTextureTags)
  {
  }

  /**
   * For LoadSceneTextures on an empty registry: the texture of call j sits in
   * slot j when every image loads, and one slot lower for every failed load
   * before it.
   */
  lemma SceneTextureSlots(decodes: seq<DecodeOutcome>, ids: seq<GLuint>, j: nat, i: nat)
    requires |decodes| == |SceneTextureTags| && |ids| == |SceneTextureTags|
    requires i < j < |SceneTextureTags| && Uploadable(decodes[j])
    ensures (forall k :: 0 <= k < j ==> Uploadable(decodes[k])) ==>
      FirstSlot(StoredUpTo(decodes, ids, SceneTextureTags, |decodes|), SceneTextureTags[j]) == j
    ensures !Uploadable(decodes[i]) ==>
      FirstSlot(StoredUpTo(decodes, ids, SceneTextureTags, |decodes|), SceneTextureTags[j]) < j
  {
    SceneTextureTagsDistinct();
    LoadedSlot(decodes, ids, SceneTextureTags, |decodes|, j);
    UploadableCountBound(decodes, j, i);
    if forall k :: 0 <= k < j ==> Uploadable(decodes[k]) {
      AllUploadableCount(decodes, j);
    }
  }

  lemma {:induction false} AllUploadableCount(decodes: seq<DecodeOutcome>, k: nat)
    requires k <= |decodes| && forall i :: 0 <= i < k ==> Uploadable(decodes[i])
    ensures UploadableCount(decodes, k) == k
  {
    if k > 0 {
      AllUploadableCount(decodes, k - 1);
    }
  }

  /** A match at i with none before it is what FirstMaterial returns. */
  lemma FirstMaterialIs(materials: seq<Material>, tag: string, i: nat)
    requires i < |materials| && materials[i].tag == tag
    requires forall j :: 0 <= j < i ==> materials[j].tag != tag
    ensures FirstMaterial(materials, tag) == Some(materials[i])
  {
    assert MaterialIndexFrom(materials, tag, 0) != -1;
  }

  /**
   * Appending materials never changes what an already defined tag resolves
   * to: the first definition wins.
   */
  lemma FirstMaterialAppend(a: seq<Material>, b: seq<Material>, tag: string)
    ensures FirstMaterial(a + b, tag) ==
      if FirstMaterial(a, tag).Some? then FirstMaterial(a, tag) else FirstMaterial(b, tag)
  {
    var ab := a + b;
    var ia, ib := MaterialIndexFrom(a, tag, 0), MaterialIndexFrom(b, tag, 0);
    if ia != -1 {
      FirstMaterialIs(ab, tag, ia);
    } else if ib != -1 {
      assert ab[|a| + ib] == b[ib];
      assert forall j :: 0 <= j < |a| + ib ==> ab[j].tag != tag by {
        forall j | 0 <= j < |a| + ib ensures ab[j].tag != tag {
          if j >= |a| { assert ab[j] == b[j - |a|]; }
        }
      }
      FirstMaterialIs(ab, tag, |a| + ib);
    } else {
      assert forall j :: 0 <= j < |ab| ==> ab[j].tag != tag by {
        forall j | 0 <= j < |ab| ensures ab[j].tag != tag {
          if j >= |a| { assert ab[j] == b[j - |a|]; }
        }
      }
    }
  }

  /** The scene's materials carry pairwise different tags. */
  lemma SceneMaterialTagsDistinct()
    ensures forall i, j :: 0 <= i < j < |SceneMaterials()| ==> SceneMaterials()[i].tag != SceneMaterials()[j].tag
  {
  }

  /**
   * After DefineObjectMaterials on an empty list, every scene material is
   * found under its own tag, and defining them again changes no lookup.
   */
  lemma SceneMaterialsResolve(tag: string)
    ensures forall i :: 0 <= i < |SceneMaterials()| ==>
      FirstMaterial(SceneMaterials(), SceneMaterials()[i].tag) == Some(SceneMaterials()[i])
    ensures FirstMaterial(SceneMaterials() + SceneMaterials(), tag) == FirstMaterial(SceneMaterials(), tag)
  {
    SceneMaterialTagsDistinct();
    forall i | 0 <= i < |SceneMaterials()|
      ensures FirstMaterial(SceneMaterials(), SceneMaterials()[i].tag) == Some(SceneMaterials()[i])
    {
      FirstMaterialIs(SceneMaterials(), SceneMaterials()[i].tag, i);
    }
    FirstMaterialAppend(SceneMaterials(), SceneMaterials(), tag);
  }
}
