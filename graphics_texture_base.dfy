// graphics/texture_base.go: a second declaration of BaseTexture with the same
// fields as graphics/texture.go but different behaviour in places: SetSize
// stores any size without checks and returns nothing, and the format setter
// also exists under the name SetFormat. GL calls are left out as in
// graphics/texture.go.

module GraphicsTextureBase {
  import opened Common
  import opened TextureFormats
  import GT = GraphicsTexture
  import GL

  class BaseTexture {
    var internalFormat: Int32
    var storageFormat: UInt32
    var glFormat: UInt32
    var filterMag: Int32
    var filterMin: Int32
    var wrapR: Int32
    var wrapS: Int32
    var wrapT: Int32
    var layers: Int32
    var reference: UInt32
    var textureFormat: TextureFormat
    var size: IVec2
    var resizable: bool
    var textureType: UInt32

    function Fields(): GT.TextureFields
      reads this
    {
      GT.TextureFields(internalFormat, storageFormat, glFormat, filterMag, filterMin,
                       wrapR, wrapS, wrapT, layers, reference, textureFormat, size,
                       resizable, textureType)
    }

    /** The Go zero value of the struct, for a texture of the given GL type. */
    constructor (textureType: UInt32)
      ensures Fields() == GT.TextureFields(0, 0, 0, 0, 0, 0, 0, 0, 0, 0, 0, IVec2(0, 0), false, textureType)
    {
      internalFormat, storageFormat, glFormat := 0, 0, 0;
      filterMag, filterMin := 0, 0;
      wrapR, wrapS, wrapT := 0, 0, 0;
      layers, reference, textureFormat := 0, 0, 0;
      size := IVec2(0, 0);
      resizable := false;
      this.textureType := textureType;
    }

    /** As in graphics/texture.go: a no-op when a GL name is held, otherwise the
        generated name plus the default filter, wrap, resizable and layer values. */
    method Alloc(generated: UInt32) returns (o: Outcome)
      modifies this
      ensures o == Pass
      ensures old(reference) != 0 ==> Fields() == old(Fields())
      ensures old(reference) == 0 ==> Fields() == GT.Allocated(old(Fields()), generated)
    {
      if reference != 0 {
        return Pass;
      }
      reference := generated;
      filterMag := GL.LINEAR;
      filterMin := GL.LINEAR;
      wrapR := GL.CLAMP_TO_EDGE;
      wrapS := GL.CLAMP_TO_EDGE;
      wrapT := GL.CLAMP_TO_EDGE;
      resizable := true;
      layers := 1;
      ghost var installed := Fields();
      assert installed == GT.Allocated(old(Fields()), generated);
      SetFilter(filterMag, filterMin);
      assert Fields() == installed;
      SetWrapRST(wrapR, wrapS, wrapT);
      assert Fields() == installed;
      return Pass;
    }

    /** Dealloc leaves the reference at 0 and changes nothing when it already is. */
    method Dealloc()
      modifies this
      ensures Fields() == old(Fields()).(reference := 0)
    {
      if reference != 0 {
        reference := 0;
      }
    }

    function FilterMag(): Int32 reads this { filterMag }
    function FilterMin(): Int32 reads this { filterMin }
    function GLFormat(): UInt32 reads this { glFormat }
    function GLInternalFormat(): Int32 reads this { internalFormat }
    function GLStorageFormat(): UInt32 reads this { storageFormat }
    function GLType(): UInt32 reads this { textureType }
    function Height(): Int32 reads this { size.y }
    function Width(): Int32 reads this { size.x }
    function Layers(): Int32 reads this { layers }
    function MipLevels(): UInt32 { 1 }
    function Resizable(): bool reads this { resizable }
    function Size(): IVec2 reads this { size }
    function Format(): TextureFormat reads this { textureFormat }
    function Reference(): UInt32 reads this { reference }
    function WrapR(): Int32 reads this { wrapR }
    function WrapS(): Int32 reads this { wrapS }
    function WrapT(): Int32 reads this { wrapT }

    method SetLayers(layers: Int32)
      modifies this
      ensures Layers() == layers
      ensures Fields() == old(Fields()).(layers := layers)
    {
      this.layers := layers;
    }

    method SetResizable(resizable: bool)
      modifies this
      ensures Resizable() == resizable
      ensures Fields() == old(Fields()).(resizable := resizable)
    {
      this.resizable := resizable;
    }

    method SetMagFilter(magFilter: Int32)
      modifies this
      ensures FilterMag() == magFilter
      ensures Fields() == old(Fields()).(filterMag := magFilter)
    {
      filterMag := magFilter;
    }

    method SetMinFilter(minFilter: Int32)
      modifies this
      ensures FilterMin() == minFilter
      ensures Fields() == old(Fields()).(filterMin := minFilter)
    {
      filterMin := minFilter;
    }

    method SetFilter(magFilter: Int32, minFilter: Int32)
      modifies this
      ensures FilterMag() == magFilter && FilterMin() == minFilter
      ensures Fields() == old(Fields()).(filterMag := magFilter, filterMin := minFilter)
    {
      SetMagFilter(magFilter);
      SetMinFilter(minFilter);
    }

    method SetWrapR(wrapR: Int32)
      modifies this
      ensures WrapR() == wrapR
      ensures Fields() == old(Fields()).(wrapR := wrapR)
    {
      this.wrapR := wrapR;
    }

    method SetWrapS(wrapS: Int32)
      modifies this
      ensures WrapS() == wrapS
      ensures Fields() == old(Fields()).(wrapS := wrapS)
    {
      this.wrapS := wrapS;
    }

    method SetWrapT(wrapT: Int32)
      modifies this
      ensures WrapT() == wrapT
      ensures Fields() == old(Fields()).(wrapT := wrapT)
    {
      this.wrapT := wrapT;
    }

    method SetWrapST(wrapS: Int32, wrapT: Int32)
      modifies this
      ensures WrapS() == wrapS && WrapT() == wrapT
      ensures Fields() == old(Fields()).(wrapS := wrapS, wrapT := wrapT)
    {
      SetWrapS(wrapS);
      SetWrapT(wrapT);
    }

    method SetWrapRST(wrapR: Int32, wrapS: Int32, wrapT: Int32)
      modifies this
      ensures WrapR() == wrapR && WrapS() == wrapS && WrapT() == wrapT
      ensures Fields() == old(Fields()).(wrapR := wrapR, wrapS := wrapS, wrapT := wrapT)
    {
      SetWrapR(wrapR);
      SetWrapS(wrapS);
      SetWrapT(wrapT);
    }

    /** SetGLFormats stores exactly the three given values. */
    method SetGLFormats(internalFormat: Int32, format: UInt32, storageFormat: UInt32)
      modifies this
      ensures GLInternalFormat() == internalFormat && GLFormat() == format && GLStorageFormat() == storageFormat
      ensures Fields() == old(Fields()).(internalFormat := internalFormat, glFormat := format,
                                         storageFormat := storageFormat)
    {
      this.internalFormat := internalFormat;
      this.glFormat := format;
      this.storageFormat := storageFormat;
    }

    /** SetFormat and SetTexFormat have the same effect: the three table entries
        for the format are stored, and the textureFormat field is left alone. */
    method SetFormat(format: TextureFormat)
      modifies this
      ensures Format() == old(Format())
      ensures Fields() == old(Fields()).(internalFormat := ToInternal(format), glFormat := ToFormat(format),
                                         storageFormat := ToStorage(format))
    {
      SetGLFormats(ToInternal(format), ToFormat(format), ToStorage(format));
    }

    method SetTexFormat(format: TextureFormat)
      modifies this
      ensures Format() == old(Format())
      ensures Fields() == old(Fields()).(internalFormat := ToInternal(format), glFormat := ToFormat(format),
                                         storageFormat := ToStorage(format))
    {
      SetGLFormats(ToInternal(format), ToFormat(format), ToStorage(format));
    }

    /** This SetSize stores any size, even on a texture that is not resizable
        and even with non-positive dimensions. */
    method SetSize(size: IVec2)
      modifies this
      ensures Size() == size
      ensures Fields() == old(Fields()).(size := size)
    {
      this.size := size;
    }
  }
}
