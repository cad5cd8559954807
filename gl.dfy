// The numeric values of the OpenGL enumerants the modelled code uses, as the
// OpenGL 4.5 core headers define them.

module GL {

  // sized internal formats
  const R8: int := 0x8229
  const RG8: int := 0x822B
  const RGB8: int := 0x8051
  const RGBA8: int := 0x8058
  const R16F: int := 0x822D
  const RG16F: int := 0x822F
  const RGB16F: int := 0x881B
  const RGBA16F: int := 0x881A
  const R32F: int := 0x822E
  const RG32F: int := 0x8230
  const RGB32F: int := 0x8815
  const RGBA32F: int := 0x8814
  const RGB32UI: int := 0x8D71
  const RGBA32UI: int := 0x8D70
  const RGBA16UI: int := 0x8D76
  const DEPTH_COMPONENT16: int := 0x81A5
  const DEPTH_COMPONENT24: int := 0x81A6
  const DEPTH24_STENCIL8: int := 0x88F0
  const STENCIL_INDEX8: int := 0x8D48

  // pixel formats
  const RED: int := 0x1903
  const RG: int := 0x8227
  const RGB: int := 0x1907
  const RGBA: int := 0x1908
  const RGB_INTEGER: int := 0x8D98
  const RGBA_INTEGER: int := 0x8D99
  const DEPTH_COMPONENT: int := 0x1902

  // pixel storage types
  const UNSIGNED_BYTE: int := 0x1401
  const UNSIGNED_SHORT: int := 0x1403
  const UNSIGNED_INT: int := 0x1405
  const FLOAT: int := 0x1406
  const HALF_FLOAT: int := 0x140B
  const UNSIGNED_INT_24_8: int := 0x84FA

  // texture targets and parameters
  const TEXTURE_2D: int := 0x0DE1
  const TEXTURE0: int := 0x84C0
  const LINEAR: int := 0x2601
  const CLAMP_TO_EDGE: int := 0x812F

  // stencil state
  const EQUAL: int := 0x0202
  const KEEP: int := 0x1E00
  const INCR: int := 0x1E02
}
