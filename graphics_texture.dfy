// graphics/texture.go: the BaseTexture that every texture kind embeds. The GL
// calls (GenTextures, DeleteTextures, TexParameteri) are left out; the GL
// texture name that GenTextures hands back is a parameter of Alloc.

module GraphicsTexture {
  import opened Common
  import opened TextureFormats
  import GL

  /** A snapshot of every field of a BaseTexture, used to say what a method
      changes and that it changes nothing else. */
  datatype TextureFields = TextureFields(
    internalFormat: Int32,
    storageFormat: UInt32,
    glFormat: UInt32,
    filterMag: Int32,
    filterMin: Int32,
    wrapR: Int32,
    wrapS: Int32,
    wrapT: Int32,
    layers: Int32,
    reference: UInt32,
    textureFormat: TextureFormat,
    size: IVec2,
    resizable: bool,
    textureType: UInt32)

  /** The field values Alloc installs on a texture that has no GL name yet. */
  function Allocated(t: TextureFields, name: UInt32): (r: TextureFields)
  {
    t.(reference := name,
       filterMag := GL.LINEAR, filterMin := GL.LINEAR,
       wrapR := GL.CLAMP_TO_EDGE, wrapS := GL.CLAMP_TO_EDGE, wrapT := GL.CLAMP_TO_EDGE,
       resizable := true, layers := 1)
  }

  class BaseTexture {
    var internalFormat: Int32
    var storageFormat: UInt32
    var glFormat: UInt32
    var filterMag: Int32
    var filterMin: Int32
    var wrapR: Int32
    var wrapS: Int32
    var wrapT: Int32
    var layers: Int32
    var reference: UInt32
    var textureFormat: TextureFormat
    var size: IVec2
    var resizable: bool
    var textureType: UInt32

    function Fields(): TextureFields
      reads this
    {
      TextureFields(internalFormat, storageFormat, glFormat, filterMag, filterMin,
                    wrapR, wrapS, wrapT, layers, reference, textureFormat, size,
                    resizable, textureType)
    }

    /** The Go zero value of the struct, for a texture of the given GL type. */
    constructor (textureType: UInt32)
      ensures Fields() == TextureFields(0, 0, 0, 0, 0, 0, 0, 0, 0, 0, 0, IVec2(0, 0), false, textureType)
    {
      internalFormat, storageFormat, glFormat := 0, 0, 0;
      filterMag, filterMin := 0, 0;
      wrapR, wrapS, wrapT := 0, 0, 0;
      layers, reference, textureFormat := 0, 0, 0;
      size := IVec2(0, 0);
      resizable := false;
      this.textureType := textureType;
    }

    /** Alloc does nothing on a texture that already has a GL name; otherwise it
        takes the name GenTextures produced and installs linear filtering,
        clamp-to-edge wrapping, resizability and one layer. It never fails. */
    method Alloc(generated: UInt32) returns (o: Outcome)
      modifies this
      ensures o == Pass
      ensures old(reference) != 0 ==> Fields() == old(Fields())
      ensures old(reference) == 0 ==> Fields() == Allocated(old(Fields()), generated)
    {
      if reference != 0 {
        return Pass;
      }
      reference := generated;
      filterMag := GL.LINEAR;
      filterMin := GL.LINEAR;
      wrapR := GL.CLAMP_TO_EDGE;
      wrapS := GL.CLAMP_TO_EDGE;
      wrapT := GL.CLAMP_TO_EDGE;
      resizable := true;
      layers := 1;
      ghost var installed := Fields();
      assert installed == Allocated(old(Fields()), generated);
      SetFilter(filterMag, filterMin);
      assert Fields() == installed;
      SetWrapRST(wrapR, wrapS, wrapT);
      assert Fields() == installed;
      return Pass;
    }

    /** Dealloc releases the GL name: afterwards the reference is 0, and a second
        Dealloc changes nothing. */
    method Dealloc()
      modifies this
      ensures Fields() == old(Fields()).(reference := 0)
    {
      if reference != 0 {
        reference := 0;
      }
    }

    function FilterMag(): Int32 reads this { filterMag }
    function FilterMin(): Int32 reads this { filterMin }
    function GLFormat(): UInt32 reads this { glFormat }
    function GLInternalFormat(): Int32 reads this { internalFormat }
    function GLStorageFormat(): UInt32 reads this { storageFormat }
    function GLTextureType(): UInt32 reads this { textureType }
    function Height(): Int32 reads this { size.y }
    function Width(): Int32 reads this { size.x }
    function Layers(): Int32 reads this { layers }
    function MipLevels(): UInt32 { 1 }
    function Resizable(): bool reads this { resizable }
    function Size(): IVec2 reads this { size }
    function TexFormat(): TextureFormat reads this { textureFormat }
    function Reference(): UInt32 reads this { reference }
    function WrapR(): Int32 reads this { wrapR }
    function WrapS(): Int32 reads this { wrapS }
    function WrapT(): Int32 reads this { wrapT }

    method SetLayers(layers: Int32)
      modifies this
      ensures Layers() == layers
      ensures Fields() == old(Fields()).(layers := layers)
    {
      this.layers := layers;
    }

    method SetResizable(resizable: bool)
      modifies this
      ensures Resizable() == resizable
      ensures Fields() == old(Fields()).(resizable := resizable)
    {
      this.resizable := resizable;
    }

    method SetMagFilter(magFilter: Int32)
      modifies this
      ensures FilterMag() == magFilter
      ensures Fields() == old(Fields()).(filterMag := magFilter)
    {
      filterMag := magFilter;
    }

    method SetMinFilter(minFilter: Int32)
      modifies this
      ensures FilterMin() == minFilter
      ensures Fields() == old(Fields()).(filterMin := minFilter)
    {
      filterMin := minFilter;
    }

    method SetFilter(magFilter: Int32, minFilter: Int32)
      modifies this
      ensures FilterMag() == magFilter && FilterMin() == minFilter
      ensures Fields() == old(Fields()).(filterMag := magFilter, filterMin := minFilter)
    {
      SetMagFilter(magFilter);
      SetMinFilter(minFilter);
    }

    method SetWrapR(wrapR: Int32)
      modifies this
      ensures WrapR() == wrapR
      ensures Fields() == old(Fields()).(wrapR := wrapR)
    {
      this.wrapR := wrapR;
    }

    method SetWrapS(wrapS: Int32)
      modifies this
      ensures WrapS() == wrapS
      ensures Fields() == old(Fields()).(wrapS := wrapS)
    {
      this.wrapS := wrapS;
    }

    method SetWrapT(wrapT: Int32)
      modifies this
      ensures WrapT() == wrapT
      ensures Fields() == old(Fields()).(wrapT := wrapT)
    {
      this.wrapT := wrapT;
    }

    method SetWrapST(wrapS: Int32, wrapT: Int32)
      modifies this
      ensures WrapS() == wrapS && WrapT() == wrapT
      ensures Fields() == old(Fields()).(wrapS := wrapS, wrapT := wrapT)
    {
      SetWrapS(wrapS);
      SetWrapT(wrapT);
    }

    method SetWrapRST(wrapR: Int32, wrapS: Int32, wrapT: Int32)
      modifies this
      ensures WrapR() == wrapR && WrapS() == wrapS && WrapT() == wrapT
      ensures Fields() == old(Fields()).(wrapR := wrapR, wrapS := wrapS, wrapT := wrapT)
    {
      SetWrapR(wrapR);
      SetWrapS(wrapS);
      SetWrapT(wrapT);
    }

    /** SetGLFormats stores the three GL format values as given. */
    method SetGLFormats(internalFormat: Int32, format: UInt32, storageFormat: UInt32)
      modifies this
      ensures GLInternalFormat() == internalFormat && GLFormat() == format && GLStorageFormat() == storageFormat
      ensures Fields() == old(Fields()).(internalFormat := internalFormat, glFormat := format,
                                         storageFormat := storageFormat)
    {
      this.internalFormat := internalFormat;
      this.glFormat := format;
      this.storageFormat := storageFormat;
    }

    /** SetTexFormat stores the three table entries for the format; as written
        it never stores the format itself, so TexFormat() keeps its old value. */
    method SetTexFormat(format: TextureFormat)
      modifies this
      ensures GLInternalFormat() == ToInternal(format)
      ensures GLFormat() == ToFormat(format)
      ensures GLStorageFormat() == ToStorage(format)
      ensures TexFormat() == old(TexFormat())
      ensures Fields() == old(Fields()).(internalFormat := ToInternal(format), glFormat := ToFormat(format),
                                         storageFormat := ToStorage(format))
    {
      SetGLFormats(ToInternal(format), ToFormat(format), ToStorage(format));
    }

    /** SetSize refuses a texture that is not resizable, then a size with a
        non-positive dimension; in both cases nothing changes. */
    method SetSize(size: IVec2) returns (o: Outcome)
      modifies this
      ensures !old(resizable) ==> o == Fail(TextureNotResizable(old(reference)))
      ensures old(resizable) && (size.x <= 0 || size.y <= 0) ==> o == Fail(TextureInvalidSize(size))
      ensures o.Fail? ==> Fields() == old(Fields())
      ensures o.Pass? <==> old(resizable) && size.x > 0 && size.y > 0
      ensures o.Pass? ==> Size() == size && Fields() == old(Fields()).(size := size)
    {
      if !resizable {
        return Fail(TextureNotResizable(reference));
      }
      if size.x <= 0 || size.y <= 0 {
        return Fail(TextureInvalidSize(size));
      }
      this.size := size;
      return Pass;
    }
  }
}
