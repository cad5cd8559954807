// graphics/texture.go: the TextureFormat enumeration and the three switch
// tables that turn a format into OpenGL's internal format, pixel format and
// pixel storage type.

module TextureFormats {
  import opened Common
  import GL

  /** TextureFormat is a Go uint32; the named formats are 0 through 21. */
  type TextureFormat = UInt32

  const DefaultColor: TextureFormat := 0
  const DefaultHDRColor: TextureFormat := 1
  const DefaultDepth: TextureFormat := 2
  const R8: TextureFormat := 3
  const RG8: TextureFormat := 4
  const RGB8: TextureFormat := 5
  const RGBA8: TextureFormat := 6
  const R16: TextureFormat := 7
  const RG16: TextureFormat := 8
  const RGB16: TextureFormat := 9
  const RGBA16: TextureFormat := 10
  const RGBA16UI: TextureFormat := 11
  const R32: TextureFormat := 12
  const RG32: TextureFormat := 13
  const RGB32: TextureFormat := 14
  const RGBA32: TextureFormat := 15
  const RGB32UI: TextureFormat := 16
  const RGBA32UI: TextureFormat := 17
  const Depth16: TextureFormat := 18
  const Depth24: TextureFormat := 19
  const Depth24Stencil8: TextureFormat := 20
  const Stencil8: TextureFormat := 21

  /** The formats the enumeration names; any other uint32 is unlisted. */
  predicate IsListed(f: TextureFormat) {
    f <= Stencil8
  }

  /** TextureFormatToInternal: the sized internal format, 0 for an unlisted value. */
  function ToInternal(f: TextureFormat): (r: int)
    ensures 0 <= r < 0x1_0000
    ensures r == 0 <==> !IsListed(f)
  {
    if f == R8 then GL.R8
    else if f == RG8 then GL.RG8
    else if f == RGB8 then GL.RGB8
    else if f == DefaultColor || f == RGBA8 then GL.RGBA8
    else if f == R16 then GL.R16F
    else if f == RG16 then GL.RG16F
    else if f == RGB16 then GL.RGB16F
    else if f == DefaultHDRColor || f == RGBA16 then GL.RGBA16F
    else if f == R32 then GL.R32F
    else if f == RG32 then GL.RG32F
    else if f == RGB32 then GL.RGB32F
    else if f == RGBA32 then GL.RGBA32F
    else if f == RGB32UI then GL.RGB32UI
    else if f == RGBA32UI then GL.RGBA32UI
    else if f == Depth16 then GL.DEPTH_COMPONENT16
    else if f == DefaultDepth || f == Depth24 then GL.DEPTH_COMPONENT24
    else if f == Depth24Stencil8 then GL.DEPTH24_STENCIL8
    else if f == Stencil8 then GL.STENCIL_INDEX8
    else if f == RGBA16UI then GL.RGBA16UI
    else 0
  }

  /** TextureFormatToFormat: the pixel format; the two stencil formats and
      every unlisted value give 0. */
  function ToFormat(f: TextureFormat): (r: int)
    ensures 0 <= r < 0x1_0000
    ensures r == 0 <==> (!IsListed(f) || f == Depth24Stencil8 || f == Stencil8)
  {
    if f == R8 || f == R16 || f == R32 then GL.RED
    else if f == RG8 || f == RG16 || f == RG32 then GL.RG
    else if f == RGB8 || f == RGB16 || f == RGB32 then GL.RGB
    else if f == RGB32UI then GL.RGB_INTEGER
    else if f == DefaultColor || f == RGBA8 || f == DefaultHDRColor || f == RGBA16
         || f == RGBA16UI || f == RGBA32 then GL.RGBA
    else if f == RGBA32UI then GL.RGBA_INTEGER
    else if f == DefaultDepth || f == Depth16 || f == Depth24 then GL.DEPTH_COMPONENT
    else 0
  }

  /** TextureFormatToStorage: the pixel storage type, 0 for an unlisted value. */
  function ToStorage(f: TextureFormat): (r: int)
    ensures 0 <= r < 0x1_0000
    ensures r == 0 <==> !IsListed(f)
  {
    if f == DefaultColor || f == R8 || f == RG8 || f == RGB8 || f == RGBA8 || f == Stencil8 then GL.UNSIGNED_BYTE
    else if f == R16 || f == RG16 || f == RGB16 || f == DefaultHDRColor || f == RGBA16 then GL.HALF_FLOAT
    else if f == RGBA16UI then GL.UNSIGNED_SHORT
    else if f == R32 || f == RG32 || f == RGB32 || f == RGBA32 then GL.FLOAT
    else if f == RGB32UI || f == RGBA32UI then GL.UNSIGNED_INT
    else if f == DefaultDepth || f == Depth16 || f == Depth24 then GL.FLOAT
    else if f == Depth24Stencil8 then GL.UNSIGNED_INT_24_8
    else 0
  }

  // ---------------------------------------------------------------------------
  // An independent reference: what each format's name says about it.

  /** The kind of one component, as the format's name spells it. */
  datatype ComponentKind = Unorm8 | Float16 | Uint16 | Float32 | Uint32 | Depth | DepthStencil | Stencil

  /** Number of colour channels (0 for the depth and stencil formats). */
  function Channels(f: TextureFormat): nat {
    if f in {R8, R16, R32} then 1
    else if f in {RG8, RG16, RG32} then 2
    else if f in {RGB8, RGB16, RGB32, RGB32UI} then 3
    else if f in {DefaultColor, DefaultHDRColor, RGBA8, RGBA16, RGBA16UI, RGBA32, RGBA32UI} then 4
    else 0
  }

  /** The component kind of a listed format. */
  function Kind(f: TextureFormat): Option<ComponentKind> {
    if f in {DefaultColor, R8, RG8, RGB8, RGBA8} then Some(Unorm8)
    else if f in {DefaultHDRColor, R16, RG16, RGB16, RGBA16} then Some(Float16)
    else if f == RGBA16UI then Some(Uint16)
    else if f in {R32, RG32, RGB32, RGBA32} then Some(Float32)
    else if f in {RGB32UI, RGBA32UI} then Some(Uint32)
    else if f in {DefaultDepth, Depth16, Depth24} then Some(Depth)
    else if f == Depth24Stencil8 then Some(DepthStencil)
    else if f == Stencil8 then Some(Stencil)
    else None
  }

  /** The storage type a component kind calls for. */
  function StorageOfKind(k: ComponentKind): int {
    match k
    case Unorm8 => GL.UNSIGNED_BYTE
    case Float16 => GL.HALF_FLOAT
    case Uint16 => GL.UNSIGNED_SHORT
    case Float32 => GL.FLOAT
    case Uint32 => GL.UNSIGNED_INT
    case Depth => GL.FLOAT
    case DepthStencil => GL.UNSIGNED_INT_24_8
    case Stencil => GL.UNSIGNED_BYTE
  }

  /** The pixel format a channel count calls for, for normalised and float data. */
  function ColorFormatOfChannels(n: nat): int {
    if n == 1 then GL.RED else if n == 2 then GL.RG else if n == 3 then GL.RGB else GL.RGBA
  }

  /** The three default formats behave exactly like the sized format they stand for. */
  lemma DefaultFormatsAlias()
    ensures ToInternal(DefaultColor) == ToInternal(RGBA8)
         && ToFormat(DefaultColor) == ToFormat(RGBA8)
         && ToStorage(DefaultColor) == ToStorage(RGBA8)
    ensures ToInternal(DefaultHDRColor) == ToInternal(RGBA16)
         && ToFormat(DefaultHDRColor) == ToFormat(RGBA16)
         && ToStorage(DefaultHDRColor) == ToStorage(RGBA16)
    ensures ToInternal(DefaultDepth) == ToInternal(Depth24)
         && ToFormat(DefaultDepth) == ToFormat(Depth24)
         && ToStorage(DefaultDepth) == ToStorage(Depth24)
  {
  }

  /** The storage table agrees with the component kind named by every listed format. */
  lemma StorageFollowsKind(f: TextureFormat)
    ensures Kind(f).Some? <==> IsListed(f)
    ensures Kind(f).Some? ==> ToStorage(f) == StorageOfKind(Kind(f).value)
  {
  }

  /** The pixel-format table agrees with the channel count for normalised and
      float formats, gives the integer formats for the two 32-bit unsigned
      formats, and, as written, plain RGBA for RGBA16UI. */
  lemma FormatFollowsChannels(f: TextureFormat)
    ensures Kind(f) in {Some(Unorm8), Some(Float16), Some(Float32)}
            ==> ToFormat(f) == ColorFormatOfChannels(Channels(f))
    ensures f == RGB32UI ==> ToFormat(f) == GL.RGB_INTEGER
    ensures f == RGBA32UI ==> ToFormat(f) == GL.RGBA_INTEGER
    ensures f == RGBA16UI ==> ToFormat(f) == GL.RGBA
    ensures Kind(f) == Some(Depth) ==> ToFormat(f) == GL.DEPTH_COMPONENT
  {
  }

  /** Two listed formats share an internal format only when one is a default
      alias of the other. */
  lemma InternalFormatsDistinct(f: TextureFormat, g: TextureFormat)
    requires IsListed(f) && IsListed(g) && f < g
    requires ToInternal(f) == ToInternal(g)
    ensures (f, g) in {(DefaultColor, RGBA8), (DefaultHDRColor, RGBA16), (DefaultDepth, Depth24)}
  {
  }
}
