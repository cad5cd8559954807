// system/asset/texture/texture.go: the texture asset handler. Image decoding
// (image.Decode, draw.Draw) is left out: Load receives the decoded image's
// colour model, or None when decoding failed. The texture it builds is
// represented by its BaseTexture; the GL allocation result and the instance
// identifier of the new texture are parameters.

module AssetTexture {
  import opened Common
  import opened TextureFormats
  import opened AssetRegistry
  import GT = GraphicsTexture
  import GL

  /** The colour models of Go's image/color that Load distinguishes. */
  datatype ColorModel =
    | RGBA64Model | RGBAModel | Alpha16Model | AlphaModel
    | Gray16Model | GrayModel | NRGBA64Model | NRGBAModel
    | OtherModel

  /** The texture format Load chooses for a colour model; None for a model
      without a mapping. */
  function ModelFormat(m: ColorModel): (r: Option<TextureFormat>)
    ensures r.None? <==> m == OtherModel
    ensures r.Some? ==> IsListed(r.value) && Kind(r.value).Some?
  {
    match m
    case RGBA64Model => Some(RGBA16)
    case RGBAModel => Some(RGBA8)
    case Alpha16Model => Some(RG16)
    case AlphaModel => Some(RG8)
    case Gray16Model => Some(R16)
    case GrayModel => Some(R8)
    case NRGBA64Model => Some(RGBA16)
    case NRGBAModel => Some(RGBA8)
    case OtherModel => None
  }

  /** Bytes per pixel of the decoded Go image for each model. */
  function PixelBytes(m: ColorModel): nat {
    match m
    case RGBA64Model => 8
    case RGBAModel => 4
    case Alpha16Model => 2
    case AlphaModel => 1
    case Gray16Model => 2
    case GrayModel => 1
    case NRGBA64Model => 8
    case NRGBAModel => 4
    case OtherModel => 0
  }

  /** Bytes per texel a colour format expects, from its channel count and component kind. */
  function TexelBytes(f: TextureFormat): nat {
    var width := match Kind(f)
      case Some(Unorm8) => 1
      case Some(Float16) => 2
      case Some(Uint16) => 2
      case Some(Float32) => 4
      case Some(Uint32) => 4
      case _ => 0;
    Channels(f) * width
  }

  /** The chosen format has the image's bytes per pixel for the RGBA and gray
      models; for the two alpha models it has two channels and so expects twice
      the bytes the decoded image holds. */
  lemma ModelFormatTexelBytes(m: ColorModel)
    requires m != OtherModel
    ensures m in {AlphaModel, Alpha16Model} ==> TexelBytes(ModelFormat(m).value) == 2 * PixelBytes(m)
    ensures m !in {AlphaModel, Alpha16Model} ==> TexelBytes(ModelFormat(m).value) == PixelBytes(m)
  {
  }

  /** The mapping the alpha cases evidently intend: an alpha image has one
      channel, so it maps to the one-channel format of its component width,
      and every listed model's format then expects exactly the decoded image's
      bytes per pixel. */
  function IntendedModelFormat(m: ColorModel): (r: Option<TextureFormat>)
    ensures r.None? <==> m == OtherModel
    ensures r.Some? ==> IsListed(r.value) && Kind(r.value).Some? && TexelBytes(r.value) == PixelBytes(m)
    ensures m !in {AlphaModel, Alpha16Model} ==> r == ModelFormat(m)
  {
    match m
    case Alpha16Model => Some(R16)
    case AlphaModel => Some(R8)
    case _ => ModelFormat(m)
  }

  class Handler {
    /** Asset name to the instance identifier of its texture. */
    var items: map<string, int>

    /** NewHandler: an empty registry. */
    constructor ()
      ensures items == map[]
    {
      items := map[];
    }

    /** Add refuses a name already present, then a failed allocation; only a
        texture that allocated is entered, under exactly its identifier. */
    method Add(name: string, textureId: Int32, allocResult: Outcome) returns (o: Outcome)
      modifies this
      ensures name in old(items) ==> o == Fail(AssetExists(name)) && items == old(items)
      ensures name !in old(items) && allocResult.Fail? ==> o == allocResult && items == old(items)
      ensures o.Pass? <==> name !in old(items) && allocResult.Pass?
      ensures o.Pass? ==> items == old(items)[name := textureId as int] && |items| == |old(items)| + 1
    {
      if name in items {
        return Fail(AssetExists(name));
      }
      if allocResult.Fail? {
        return allocResult;
      }
      items := items[name := textureId as int];
      return Pass;
    }

    /** Load checks for a duplicate name before decoding, refuses a failed
        decode and a colour model without a format, sets the chosen format on
        the new texture and hands it to Add. */
    method Load(name: string, decoded: Option<ColorModel>, textureId: Int32, allocResult: Outcome)
      returns (o: Outcome, texture: GT.BaseTexture?)
      modifies this
      ensures name in old(items) ==> o == Fail(AssetExists(name)) && texture == null
      ensures name !in old(items) && decoded.None? ==> o == Fail(DecodeFailed) && texture == null
      ensures name !in old(items) && decoded == Some(OtherModel) ==> o == Fail(InvalidColorFormat) && texture == null
      ensures o.Fail? ==> items == old(items)
      ensures o.Pass? <==> name !in old(items) && decoded.Some? && decoded.value != OtherModel && allocResult.Pass?
      ensures o.Pass? ==> items == old(items)[name := textureId as int]
      ensures texture != null <==> name !in old(items) && decoded.Some? && decoded.value != OtherModel
      ensures texture != null ==>
                && fresh(texture) && decoded.Some? && ModelFormat(decoded.value).Some?
                && texture.GLInternalFormat() == ToInternal(ModelFormat(decoded.value).value)
                && texture.GLFormat() == ToFormat(ModelFormat(decoded.value).value)
                && texture.GLStorageFormat() == ToStorage(ModelFormat(decoded.value).value)
    {
      texture := null;
      if name in items {
        return Fail(AssetExists(name)), null;
      }
      if decoded.None? {
        return Fail(DecodeFailed), null;
      }
      var format := ModelFormat(decoded.value);
      if format.None? {
        return Fail(InvalidColorFormat), null;
      }
      var t := new GT.BaseTexture(GL.TEXTURE_2D);
      t.SetTexFormat(format.value);
      texture := t;
      o := Add(name, textureId, allocResult);
    }

    /** Get: the identifier of the Texture2D registered under name. */
    function Get(name: string, instances: map<int, AssetKind>): (r: Result<int>)
      reads this
      ensures r.Ok? <==> name in items && items[name] in instances && instances[items[name]] == Texture2DKind
      ensures r.Ok? ==> r.value == items[name]
      ensures name !in items ==> r == Err(AssetNotFound(name))
      ensures name in items && items[name] in instances && instances[items[name]] != Texture2DKind ==>
                r == Err(AssetType(name))
    {
      Lookup(items, instances, name, Texture2DKind)
    }

    /** MustGet panics exactly when Get fails; otherwise it is Get's answer. */
    method MustGet(name: string, instances: map<int, AssetKind>) returns (id: int)
      requires Get(name, instances).Ok?
      ensures id == items[name] && instances[id] == Texture2DKind
    {
      var r := Get(name, instances);
      id := r.value;
    }
  }
}
