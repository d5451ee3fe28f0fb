/**
 * The parts of OpenMetaverse's `Primitive` that the conversion core reads,
 * and the other values it passes around. OpenMetaverse itself is not part of
 * this model: only the shape of its data is.
 */
module Prims {
  import opened Basics

  /**
   * A `float` (IEEE 754 binary32), given by the four bytes of its encoding,
   * least significant byte first. No float arithmetic is modelled.
   */
  datatype Float32 = Float32(b0: byte, b1: byte, b2: byte, b3: byte)

  /** The encoding of 1.0f (0x3F800000). */
  const ONE: Float32 := Float32(0x00, 0x00, 0x80, 0x3F)

  /** The encoding of 0.5f (0x3F000000). */
  const HALF: Float32 := Float32(0x00, 0x00, 0x00, 0x3F)

  /** The bytes of a float in little-endian order, whatever the host. */
  function LittleEndian(f: Float32): seq<byte>
  {
    [f.b0, f.b1, f.b2, f.b3]
  }

  /** `BitConverter.GetBytes(float)`: the encoding in the host's byte order. */
  function GetBytes(f: Float32, hostLittleEndian: bool): seq<byte>
  {
    if hostLittleEndian then [f.b0, f.b1, f.b2, f.b3] else [f.b3, f.b2, f.b1, f.b0]
  }

  /** The 16 bytes `UUID.GetBytes()` returns. */
  type UUIDBytes = s: seq<byte> | |s| == 16 witness seq(16, _ => 0)

  /** A 128-bit asset id, given by its bytes. */
  datatype UUID = UUID(bytes: UUIDBytes)

  datatype Vector3 = Vector3(x: Float32, y: Float32, z: Float32)

  /** `OMV.SculptType`. */
  datatype SculptType = Sphere | Torus | Plane | Cylinder | Mesh | Invert | Mirror

  /** `Primitive.SculptData`: the sculpt texture (or mesh asset) id and the sculpt kind. */
  datatype SculptData = SculptData(sculptTexture: UUID, sculptType: SculptType)

  /**
   * `Primitive.ConstructionData`, as the content hash reads it. A field the
   * hash folds through a `(byte)` cast holds the cast's result; every other
   * field is the `float` OpenMetaverse stores.
   */
  datatype ConstructionData = ConstructionData(
    pathCurve: byte,
    profileHollow: Float32,
    profileHole: byte,
    pathBegin: Float32,
    pathEnd: Float32,
    pathScaleX: Float32,
    pathScaleY: Float32,
    pathShearX: Float32,
    pathShearY: Float32,
    pathTwist: byte,
    pathTwistBegin: byte,
    pathRadiusOffset: byte,
    pathTaperX: byte,
    pathTaperY: byte,
    pathRevolutions: Float32,
    pathSkew: byte,
    profileBegin: Float32,
    profileEnd: Float32)

  datatype Color4 = Color4(r: Float32, g: Float32, b: Float32, a: Float32)

  /**
   * `Primitive.TextureEntryFace`. `bump` and `shiny` hold the results of the
   * `(byte)` casts of the `Bumpiness` and `Shininess` enums.
   */
  datatype TextureEntryFace = TextureEntryFace(
    rgba: Color4,
    repeatU: Float32,
    repeatV: Float32,
    offsetU: Float32,
    offsetV: Float32,
    rotation: Float32,
    glow: Float32,
    bump: byte,
    shiny: byte,
    fullbright: bool,
    textureID: UUID)

  /** `Primitive.TextureEntry`: `faces[i]` is what `GetFace(i)` returns (`None` for null). */
  datatype TextureEntry = TextureEntry(faces: seq<Option<TextureEntryFace>>)

  /** `TextureEntry.GetFace(i)`; an index past the table yields no face. */
  function GetFace(te: TextureEntry, i: nat): Option<TextureEntryFace>
  {
    if i < |te.faces| then te.faces[i] else None
  }

  /** `OMV.Primitive`: construction data, optional sculpt reference, optional texture entry. */
  datatype Primitive = Primitive(
    primData: ConstructionData,
    sculpt: Option<SculptData>,
    textures: Option<TextureEntry>)

  /** `OMVR.DetailLevel`. */
  datatype DetailLevel = Low | Medium | High | Highest

  /** `OMVR.FacetedMesh`: geometry produced by a mesher, opaque to this core. */
  datatype FacetedMesh = FacetedMesh(id: nat)

  /** An `IAssetFetcher`; the only one the core creates is `OarFileAssets(assetDir)`. */
  datatype AssetFetcher = OarFileAssets(assetDir: string)
}
