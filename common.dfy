// Shared value types of the engine model: Go's fixed-width integers, the
// error values the core returns, and failure-compatible result wrappers.

module Common {

  /** Go's int32, uint32 and uint8, kept as ranges of the unbounded integers. */
  type Int32 = x: int | -0x8000_0000 <= x < 0x8000_0000
  type UInt32 = x: int | 0 <= x < 0x1_0000_0000
  type UInt8 = x: int | 0 <= x < 0x100

  /** math.IVec2 (an int32 pair) and math.IVec3 (an int32 triple). */
  datatype IVec2 = IVec2(x: Int32, y: Int32)
  datatype IVec3 = IVec3(x: Int32, y: Int32, z: Int32)

  /** mgl32.Vec3 and mgl32.Vec2: float payloads the core only copies around. */
  datatype Vec3 = Vec3(x: real, y: real, z: real)
  datatype Vec2 = Vec2(x: real, y: real)

  /** Go's zero values for the two vector types. */
  const ZeroVec3: Vec3 := Vec3(0.0, 0.0, 0.0)
  const ZeroVec2: Vec2 := Vec2(0.0, 0.0)

  /** The error values the modelled code returns. */
  datatype Error =
    // core asset errors
    | AssetExists(name: string)
    | AssetLoaded(name: string)
    | AssetNotFound(name: string)
    | AssetType(name: string)
    | InstanceNotFound(id: int)
    // decoders and allocation (foreign code)
    | DecodeFailed
    | AllocFailed
    | InvalidColorFormat
    // graphics
    | MeshMissingFaces
    | MeshInvalidFaceType
    | MeshUploadEmpty
    | MeshUploadAsymmetric
    | TextureNotResizable(reference: UInt32)
    | TextureInvalidSize(size: IVec2)
    // core app
    | AppAlreadyCreated
    | HookFailed
    | SystemSetupFailed(system: string)
    | SystemNotFound(system: string)
    // scene deserialisation
    | MarshallerNotFound(tag: string)
    | MarshallerExists(tag: string)
    | BuilderFailed(tag: string)
    | SceneAddFailed
    | Annotated(note: string, cause: Error)

  datatype Option<+T> = None | Some(value: T)

  /** A value or the error that replaced it (Go's `(T, error)` pair). */
  datatype Result<+T> = Ok(value: T) | Err(error: Error)

  /** A Go `error` return: nil or an error value. */
  datatype Outcome = Pass | Fail(error: Error)
}
