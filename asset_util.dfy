/**
 * AssetUtil.GetMeshKey: the djb2 (Bernstein) content hash of a primitive's
 * shape, scale, level of detail, sculpt reference and face materials, on a
 * wrapping 64-bit unsigned accumulator.
 *
 * The hash is specified as a fold of the byte step over one byte sequence,
 * MeshKeyBytes. That sequence is built from a list of tagged fields (a byte,
 * a ushort or a float), each encoded the way its `djb2` overload consumes it.
 */
module AssetUtil {
  import opened Basics
  import opened Prims

  const TWO_64: int := 0x1_0000_0000_0000_0000

  /** C# `ulong`. */
  type ulong = x: int | 0 <= x < TWO_64

  /** The seed of the accumulator. */
  const SEED: ulong := 5381

  /** `hash << 5` on a `ulong`: the high bits are shifted out. */
  function ShiftLeft5(h: ulong): ulong
  {
    (h * 32) % TWO_64
  }

  /** `a + b` on `ulong`, wrapping. */
  function Plus(a: ulong, b: ulong): ulong
  {
    (a + b) % TWO_64
  }

  /**
   * `djb2(ulong hash, byte c)`: `((hash << 5) + hash) + c`, wrapping; that is
   * the classic djb2 step `hash * 33 + c` modulo 2^64.
   */
  function Djb2Byte(hash: ulong, c: byte): (r: ulong)
    ensures r == (hash * 33 + c) % TWO_64
  {
    ModSumLeft(hash * 32, hash);
    ModSumLeft(hash * 33, c);
    Plus(Plus(ShiftLeft5(hash), hash), c)
  }

  /** Reducing a summand modulo 2^64 first does not change the sum modulo 2^64. */
  lemma ModSumLeft(x: int, y: int)
    ensures (x % TWO_64 + y) % TWO_64 == (x + y) % TWO_64
  {
    var q := x / TWO_64;
    assert x == q * TWO_64 + x % TWO_64;
    assert x + y == (x % TWO_64 + y) + q * TWO_64;
  }

  /** The byte step applied to every byte of `s`, in order. */
  function Fold(hash: ulong, s: seq<byte>): ulong
    decreases |s|
  {
    if s == [] then hash else Djb2Byte(Fold(hash, s[..|s| - 1]), s[|s| - 1])
  }

  /** Folding a concatenation is folding the first part, then the second. */
  lemma {:induction false} FoldConcat(hash: ulong, a: seq<byte>, b: seq<byte>)
    ensures Fold(hash, a + b) == Fold(Fold(hash, a), b)
    decreases |b|
  {
    if b == [] {
      assert a + b == a;
    } else {
      FoldConcat(hash, a, b[..|b| - 1]);
      assert (a + b)[..|a + b| - 1] == a + b[..|b| - 1];
    }
  }

  /** The bytes `djb2(ulong, ushort)` consumes: `(byte)c`, then `c >> 8`. */
  function UShortBytes(c: ushort): seq<byte>
  {
    [c % 0x100, c / 0x100]
  }

  /** `djb2(ulong hash, ushort c)`: the byte step folded over the low byte, then the high byte. */
  function Djb2UShort(hash: ulong, c: ushort): (r: ulong)
    ensures r == Fold(hash, UShortBytes(c))
  {
    var h := Plus(Plus(ShiftLeft5(hash), hash), c % 0x100);
    var s := UShortBytes(c);
    assert h == Fold(hash, s[..1]) by {
      assert s[..1][..0] == [];
    }
    assert s[..2] == s;
    Plus(Plus(ShiftLeft5(h), h), c / 0x100)
  }

  /**
   * `djb2(ulong hash, float c)`: the byte step folded over the four bytes of
   * `BitConverter.GetBytes(c)`, in array order, so in host byte order.
   */
  function Djb2Float(hash: ulong, c: Float32, hostLittleEndian: bool): (r: ulong)
    ensures r == Fold(hash, GetBytes(c, hostLittleEndian))
  {
    var asBytes := GetBytes(c, hostLittleEndian);
    var h0 := Plus(Plus(ShiftLeft5(hash), hash), asBytes[0]);
    var h1 := Plus(Plus(ShiftLeft5(h0), h0), asBytes[1]);
    var h2 := Plus(Plus(ShiftLeft5(h1), h1), asBytes[2]);
    assert h0 == Fold(hash, asBytes[..1]) by {
      assert asBytes[..1][..0] == [];
    }
    assert h1 == Fold(hash, asBytes[..2]) by {
      assert asBytes[..2][..1] == asBytes[..1];
    }
    assert h2 == Fold(hash, asBytes[..3]) by {
      assert asBytes[..3][..2] == asBytes[..2];
    }
    assert asBytes[..4] == asBytes;
    Plus(Plus(ShiftLeft5(h2), h2), asBytes[3])
  }

  /** A value folded into the hash, tagged with the overload that folds it. */
  datatype Field = ByteField(b: byte) | UShortField(u: ushort) | FloatField(f: Float32)

  /** The bytes the overload for `f` consumes. */
  function Encode(f: Field, hostLittleEndian: bool): seq<byte>
  {
    match f
    case ByteField(b) => [b]
    case UShortField(u) => UShortBytes(u)
    case FloatField(x) => GetBytes(x, hostLittleEndian)
  }

  /** The encodings of the fields, concatenated in order. */
  function EncodeAll(fs: seq<Field>, hostLittleEndian: bool): seq<byte>
    decreases |fs|
  {
    if fs == [] then []
    else EncodeAll(fs[..|fs| - 1], hostLittleEndian) + Encode(fs[|fs| - 1], hostLittleEndian)
  }

  /** Concatenation is associative. */
  lemma AppendAssoc<T>(x: seq<T>, y: seq<T>, z: seq<T>)
    ensures x + y + z == x + (y + z)
  {
  }

  /** Encoding one more field appends its encoding. */
  lemma EncodeAllSnoc(fs: seq<Field>, f: Field, hostLittleEndian: bool)
    ensures EncodeAll(fs + [f], hostLittleEndian) == EncodeAll(fs, hostLittleEndian) + Encode(f, hostLittleEndian)
  {
    assert (fs + [f])[..|fs|] == fs;
  }

  /** Encoding a concatenation of fields concatenates the encodings. */
  lemma {:induction false} EncodeAllConcat(a: seq<Field>, b: seq<Field>, hostLittleEndian: bool)
    ensures EncodeAll(a + b, hostLittleEndian)
            == EncodeAll(a, hostLittleEndian) + EncodeAll(b, hostLittleEndian)
    decreases |b|
  {
    if b == [] {
      assert a + b == a;
    } else {
      var init, last := b[..|b| - 1], b[|b| - 1];
      EncodeAllConcat(a, init, hostLittleEndian);
      assert b == init + [last];
      assert a + b == (a + init) + [last];
      EncodeAllSnoc(a + init, last, hostLittleEndian);
      EncodeAllSnoc(init, last, hostLittleEndian);
      AppendAssoc(EncodeAll(a, hostLittleEndian), EncodeAll(init, hostLittleEndian), Encode(last, hostLittleEndian));
    }
  }

  /** The `djb2` overload that matches the field's type. */
  function Djb2Field(hash: ulong, f: Field, hostLittleEndian: bool): ulong
  {
    match f
    case ByteField(b) => Djb2Byte(hash, b)
    case UShortField(u) => Djb2UShort(hash, u)
    case FloatField(x) => Djb2Float(hash, x, hostLittleEndian)
  }

  /** Every overload is the byte step folded over the bytes it consumes. */
  lemma Djb2FieldFolds(hash: ulong, f: Field, hostLittleEndian: bool)
    ensures Djb2Field(hash, f, hostLittleEndian) == Fold(hash, Encode(f, hostLittleEndian))
  {
    match f
    case ByteField(b) =>
      assert [b][..0] == [];
    case UShortField(u) =>
    case FloatField(x) =>
  }

  /** The overloads applied to every field of `fs`, in order. */
  function FoldFields(hash: ulong, fs: seq<Field>, hostLittleEndian: bool): ulong
    decreases |fs|
  {
    if fs == [] then hash
    else Djb2Field(FoldFields(hash, fs[..|fs| - 1], hostLittleEndian), fs[|fs| - 1], hostLittleEndian)
  }

  /** Calling the overloads field by field is one fold of the byte step over the encoded fields. */
  lemma {:induction false} FoldFieldsIsFold(hash: ulong, fs: seq<Field>, hostLittleEndian: bool)
    ensures FoldFields(hash, fs, hostLittleEndian) == Fold(hash, EncodeAll(fs, hostLittleEndian))
    decreases |fs|
  {
    if fs != [] {
      var init, last := fs[..|fs| - 1], fs[|fs| - 1];
      FoldFieldsIsFold(hash, init, hostLittleEndian);
      Djb2FieldFolds(FoldFields(hash, init, hostLittleEndian), last, hostLittleEndian);
      FoldConcat(hash, EncodeAll(init, hostLittleEndian), Encode(last, hostLittleEndian));
    }
  }

  /** Folding one more field is one more call of its overload. */
  lemma FoldFieldsSnoc(hash: ulong, fs: seq<Field>, f: Field, hostLittleEndian: bool)
    ensures FoldFields(hash, fs + [f], hostLittleEndian)
            == Djb2Field(FoldFields(hash, fs, hostLittleEndian), f, hostLittleEndian)
  {
    assert (fs + [f])[..|fs|] == fs;
  }

  /** Folding a concatenation of fields is folding the first part, then the second. */
  lemma {:induction false} FoldFieldsConcat(hash: ulong, a: seq<Field>, b: seq<Field>, hostLittleEndian: bool)
    ensures FoldFields(hash, a + b, hostLittleEndian)
            == FoldFields(FoldFields(hash, a, hostLittleEndian), b, hostLittleEndian)
    decreases |b|
  {
    if b == [] {
      assert a + b == a;
    } else {
      FoldFieldsConcat(hash, a, b[..|b| - 1], hostLittleEndian);
      assert (a + b)[..|a + b| - 1] == a + b[..|b| - 1];
    }
  }

  /** Bytes folded one by one through the byte overload. */
  function BytesFields(s: seq<byte>): seq<Field>
    decreases |s|
  {
    if s == [] then [] else BytesFields(s[..|s| - 1]) + [ByteField(s[|s| - 1])]
  }

  /** Folding bytes through the byte overload folds exactly those bytes. */
  lemma {:induction false} EncodeBytesFields(s: seq<byte>, hostLittleEndian: bool)
    ensures |BytesFields(s)| == |s|
    ensures EncodeAll(BytesFields(s), hostLittleEndian) == s
    decreases |s|
  {
    if s != [] {
      var init, last := s[..|s| - 1], s[|s| - 1];
      EncodeBytesFields(init, hostLittleEndian);
      assert BytesFields(s) == BytesFields(init) + [ByteField(last)];
      EncodeAllConcat(BytesFields(init), [ByteField(last)], hostLittleEndian);
      assert EncodeAll([ByteField(last)], hostLittleEndian) == [last] by {
        assert [ByteField(last)][..0] == [];
        assert Encode(ByteField(last), hostLittleEndian) == [last];
      }
      assert init + [last] == s;
    }
  }

  /** One more byte of `s` through the byte overload. */
  lemma FoldBytesStep(hash: ulong, s: seq<byte>, i: nat, hostLittleEndian: bool)
    requires i < |s|
    ensures FoldFields(hash, BytesFields(s[..i + 1]), hostLittleEndian)
            == Djb2Byte(FoldFields(hash, BytesFields(s[..i]), hostLittleEndian), s[i])
  {
    assert s[..i + 1][..i] == s[..i];
    FoldFieldsSnoc(hash, BytesFields(s[..i]), ByteField(s[i]), hostLittleEndian);
  }

  /** No byte of `s` folded yet, and all of them. */
  lemma FoldBytesEnds(hash: ulong, s: seq<byte>, hostLittleEndian: bool)
    ensures FoldFields(hash, BytesFields(s[..0]), hostLittleEndian) == hash
    ensures FoldFields(hash, BytesFields(s[..|s|]), hostLittleEndian)
            == FoldFields(hash, BytesFields(s), hostLittleEndian)
  {
    assert s[..0] == [];
    assert s[..|s|] == s;
  }

  /** The shape fields in the order they are folded; ProfileHollow is folded twice. */
  function ShapeFields(pd: ConstructionData): (r: seq<Field>)
    ensures |r| == 19
    ensures r[1] == r[18] == FloatField(pd.profileHollow)
  {
    [ ByteField(pd.pathCurve),
      FloatField(pd.profileHollow),
      ByteField(pd.profileHole),
      FloatField(pd.pathBegin),
      FloatField(pd.pathEnd),
      FloatField(pd.pathScaleX),
      FloatField(pd.pathScaleY),
      FloatField(pd.pathShearX),
      FloatField(pd.pathShearY),
      ByteField(pd.pathTwist),
      ByteField(pd.pathTwistBegin),
      ByteField(pd.pathRadiusOffset),
      ByteField(pd.pathTaperX),
      ByteField(pd.pathTaperY),
      FloatField(pd.pathRevolutions),
      ByteField(pd.pathSkew),
      FloatField(pd.profileBegin),
      FloatField(pd.profileEnd),
      FloatField(pd.profileHollow) ]
  }

  /** ShapeFields, one field appended at a time. */
  lemma ShapeFieldsInOrder(pd: ConstructionData)
    ensures [] + [ByteField(pd.pathCurve)] + [FloatField(pd.profileHollow)]
            + [ByteField(pd.profileHole)] + [FloatField(pd.pathBegin)]
            + [FloatField(pd.pathEnd)] + [FloatField(pd.pathScaleX)]
            + [FloatField(pd.pathScaleY)] + [FloatField(pd.pathShearX)]
            + [FloatField(pd.pathShearY)] + [ByteField(pd.pathTwist)]
            + [ByteField(pd.pathTwistBegin)] + [ByteField(pd.pathRadiusOffset)]
            + [ByteField(pd.pathTaperX)] + [ByteField(pd.pathTaperY)]
            + [FloatField(pd.pathRevolutions)] + [ByteField(pd.pathSkew)]
            + [FloatField(pd.profileBegin)] + [FloatField(pd.profileEnd)]
            + [FloatField(pd.profileHollow)]
            == ShapeFields(pd)
  {
  }

  /** Folding the shape fields is the nineteen overload calls, one after another. */
  lemma FoldShapeFields(hash: ulong, pd: ConstructionData, hostLittleEndian: bool)
    ensures FoldFields(hash, ShapeFields(pd), hostLittleEndian)
            == var h1 := Djb2Byte(hash, pd.pathCurve);
               var h2 := Djb2Float(h1, pd.profileHollow, hostLittleEndian);
               var h3 := Djb2Byte(h2, pd.profileHole);
               var h4 := Djb2Float(h3, pd.pathBegin, hostLittleEndian);
               var h5 := Djb2Float(h4, pd.pathEnd, hostLittleEndian);
               var h6 := Djb2Float(h5, pd.pathScaleX, hostLittleEndian);
               var h7 := Djb2Float(h6, pd.pathScaleY, hostLittleEndian);
               var h8 := Djb2Float(h7, pd.pathShearX, hostLittleEndian);
               var h9 := Djb2Float(h8, pd.pathShearY, hostLittleEndian);
               var h10 := Djb2Byte(h9, pd.pathTwist);
               var h11 := Djb2Byte(h10, pd.pathTwistBegin);
               var h12 := Djb2Byte(h11, pd.pathRadiusOffset);
               var h13 := Djb2Byte(h12, pd.pathTaperX);
               var h14 := Djb2Byte(h13, pd.pathTaperY);
               var h15 := Djb2Float(h14, pd.pathRevolutions, hostLittleEndian);
               var h16 := Djb2Byte(h15, pd.pathSkew);
               var h17 := Djb2Float(h16, pd.profileBegin, hostLittleEndian);
               var h18 := Djb2Float(h17, pd.profileEnd, hostLittleEndian);
               Djb2Float(h18, pd.profileHollow, hostLittleEndian)
  {
    ghost var fs: seq<Field> := [];
    FoldFieldsSnoc(hash, fs, ByteField(pd.pathCurve), hostLittleEndian);
    fs := fs + [ByteField(pd.pathCurve)];
    FoldFieldsSnoc(hash, fs, FloatField(pd.profileHollow), hostLittleEndian);
    fs := fs + [FloatField(pd.profileHollow)];
    FoldFieldsSnoc(hash, fs, ByteField(pd.profileHole), hostLittleEndian);
    fs := fs + [ByteField(pd.profileHole)];
    FoldFieldsSnoc(hash, fs, FloatField(pd.pathBegin), hostLittleEndian);
    fs := fs + [FloatField(pd.pathBegin)];
    FoldFieldsSnoc(hash, fs, FloatField(pd.pathEnd), hostLittleEndian);
    fs := fs + [FloatField(pd.pathEnd)];
    FoldFieldsSnoc(hash, fs, FloatField(pd.pathScaleX), hostLittleEndian);
    fs := fs + [FloatField(pd.pathScaleX)];
    FoldFieldsSnoc(hash, fs, FloatField(pd.pathScaleY), hostLittleEndian);
    fs := fs + [FloatField(pd.pathScaleY)];
    FoldFieldsSnoc(hash, fs, FloatField(pd.pathShearX), hostLittleEndian);
    fs := fs + [FloatField(pd.pathShearX)];
    FoldFieldsSnoc(hash, fs, FloatField(pd.pathShearY), hostLittleEndian);
    fs := fs + [FloatField(pd.pathShearY)];
    FoldFieldsSnoc(hash, fs, ByteField(pd.pathTwist), hostLittleEndian);
    fs := fs + [ByteField(pd.pathTwist)];
    FoldFieldsSnoc(hash, fs, ByteField(pd.pathTwistBegin), hostLittleEndian);
    fs := fs + [ByteField(pd.pathTwistBegin)];
    FoldFieldsSnoc(hash, fs, ByteField(pd.pathRadiusOffset), hostLittleEndian);
    fs := fs + [ByteField(pd.pathRadiusOffset)];
    FoldFieldsSnoc(hash, fs, ByteField(pd.pathTaperX), hostLittleEndian);
    fs := fs + [ByteField(pd.pathTaperX)];
    FoldFieldsSnoc(hash, fs, ByteField(pd.pathTaperY), hostLittleEndian);
    fs := fs + [ByteField(pd.pathTaperY)];
    FoldFieldsSnoc(hash, fs, FloatField(pd.pathRevolutions), hostLittleEndian);
    fs := fs + [FloatField(pd.pathRevolutions)];
    FoldFieldsSnoc(hash, fs, ByteField(pd.pathSkew), hostLittleEndian);
    fs := fs + [ByteField(pd.pathSkew)];
    FoldFieldsSnoc(hash, fs, FloatField(pd.profileBegin), hostLittleEndian);
    fs := fs + [FloatField(pd.profileBegin)];
    FoldFieldsSnoc(hash, fs, FloatField(pd.profileEnd), hostLittleEndian);
    fs := fs + [FloatField(pd.profileEnd)];
    FoldFieldsSnoc(hash, fs, FloatField(pd.profileHollow), hostLittleEndian);
    fs := fs + [FloatField(pd.profileHollow)];
    ShapeFieldsInOrder(pd);
  }

  function ScaleFields(size: Vector3): seq<Field>
  {
    [FloatField(size.x), FloatField(size.y), FloatField(size.z)]
  }

  /** ScaleFields, one field appended at a time. */
  lemma ScaleFieldsInOrder(size: Vector3)
    ensures [] + [FloatField(size.x)] + [FloatField(size.y)] + [FloatField(size.z)] == ScaleFields(size)
  {
  }

  /** Folding the scale fields is the three float calls. */
  lemma FoldScaleFields(hash: ulong, size: Vector3, hostLittleEndian: bool)
    ensures FoldFields(hash, ScaleFields(size), hostLittleEndian)
            == var h1 := Djb2Float(hash, size.x, hostLittleEndian);
               var h2 := Djb2Float(h1, size.y, hostLittleEndian);
               Djb2Float(h2, size.z, hostLittleEndian)
  {
    ghost var fs: seq<Field> := [];
    FoldFieldsSnoc(hash, fs, FloatField(size.x), hostLittleEndian);
    fs := fs + [FloatField(size.x)];
    FoldFieldsSnoc(hash, fs, FloatField(size.y), hostLittleEndian);
    fs := fs + [FloatField(size.y)];
    FoldFieldsSnoc(hash, fs, FloatField(size.z), hostLittleEndian);
    fs := fs + [FloatField(size.z)];
    ScaleFieldsInOrder(size);
  }

  /** The level of detail is folded byte by byte, always least significant byte first. */
  function LodFields(lod: Float32): seq<Field>
  {
    BytesFields(LittleEndian(lod))
  }

  /** The sculpt texture id's bytes, only when there is a sculpt reference. */
  function SculptFields(sculpt: Option<SculptData>): seq<Field>
  {
    if sculpt.Some? then BytesFields(sculpt.value.sculptTexture.bytes) else []
  }

  /** The full-bright flag is folded as one of two float sentinels. */
  function FullbrightSentinel(fullbright: bool): Float32
  {
    if fullbright then ONE else HALF
  }

  /** The fourteen material fields of a face; Glow is folded twice. */
  function MaterialFields(face: TextureEntryFace): (r: seq<Field>)
    ensures |r| == 14
    ensures r[9] == r[13] == FloatField(face.glow)
  {
    [ FloatField(face.rgba.r),
      FloatField(face.rgba.g),
      FloatField(face.rgba.b),
      FloatField(face.rgba.a),
      FloatField(face.repeatU),
      FloatField(face.repeatV),
      FloatField(face.offsetU),
      FloatField(face.offsetV),
      FloatField(face.rotation),
      FloatField(face.glow),
      ByteField(face.bump),
      ByteField(face.shiny),
      FloatField(FullbrightSentinel(face.fullbright)),
      FloatField(face.glow) ]
  }

  /** MaterialFields, one field appended at a time. */
  lemma MaterialFieldsInOrder(face: TextureEntryFace)
    ensures [] + [FloatField(face.rgba.r)] + [FloatField(face.rgba.g)]
            + [FloatField(face.rgba.b)] + [FloatField(face.rgba.a)] + [FloatField(face.repeatU)]
            + [FloatField(face.repeatV)] + [FloatField(face.offsetU)]
            + [FloatField(face.offsetV)] + [FloatField(face.rotation)] + [FloatField(face.glow)]
            + [ByteField(face.bump)] + [ByteField(face.shiny)]
            + [FloatField(FullbrightSentinel(face.fullbright))] + [FloatField(face.glow)]
            == MaterialFields(face)
  {
  }

  /** Folding a face's material is the fourteen overload calls, one after another. */
  lemma FoldMaterialFields(hash: ulong, face: TextureEntryFace, hostLittleEndian: bool)
    ensures FoldFields(hash, MaterialFields(face), hostLittleEndian)
            == var h1 := Djb2Float(hash, face.rgba.r, hostLittleEndian);
               var h2 := Djb2Float(h1, face.rgba.g, hostLittleEndian);
               var h3 := Djb2Float(h2, face.rgba.b, hostLittleEndian);
               var h4 := Djb2Float(h3, face.rgba.a, hostLittleEndian);
               var h5 := Djb2Float(h4, face.repeatU, hostLittleEndian);
               var h6 := Djb2Float(h5, face.repeatV, hostLittleEndian);
               var h7 := Djb2Float(h6, face.offsetU, hostLittleEndian);
               var h8 := Djb2Float(h7, face.offsetV, hostLittleEndian);
               var h9 := Djb2Float(h8, face.rotation, hostLittleEndian);
               var h10 := Djb2Float(h9, face.glow, hostLittleEndian);
               var h11 := Djb2Byte(h10, face.bump);
               var h12 := Djb2Byte(h11, face.shiny);
               var h13 := Djb2Float(h12, FullbrightSentinel(face.fullbright), hostLittleEndian);
               Djb2Float(h13, face.glow, hostLittleEndian)
  {
    ghost var fs: seq<Field> := [];
    FoldFieldsSnoc(hash, fs, FloatField(face.rgba.r), hostLittleEndian);
    fs := fs + [FloatField(face.rgba.r)];
    FoldFieldsSnoc(hash, fs, FloatField(face.rgba.g), hostLittleEndian);
    fs := fs + [FloatField(face.rgba.g)];
    FoldFieldsSnoc(hash, fs, FloatField(face.rgba.b), hostLittleEndian);
    fs := fs + [FloatField(face.rgba.b)];
    FoldFieldsSnoc(hash, fs, FloatField(face.rgba.a), hostLittleEndian);
    fs := fs + [FloatField(face.rgba.a)];
    FoldFieldsSnoc(hash, fs, FloatField(face.repeatU), hostLittleEndian);
    fs := fs + [FloatField(face.repeatU)];
    FoldFieldsSnoc(hash, fs, FloatField(face.repeatV), hostLittleEndian);
    fs := fs + [FloatField(face.repeatV)];
    FoldFieldsSnoc(hash, fs, FloatField(face.offsetU), hostLittleEndian);
    fs := fs + [FloatField(face.offsetU)];
    FoldFieldsSnoc(hash, fs, FloatField(face.offsetV), hostLittleEndian);
    fs := fs + [FloatField(face.offsetV)];
    FoldFieldsSnoc(hash, fs, FloatField(face.rotation), hostLittleEndian);
    fs := fs + [FloatField(face.rotation)];
    FoldFieldsSnoc(hash, fs, FloatField(face.glow), hostLittleEndian);
    fs := fs + [FloatField(face.glow)];
    FoldFieldsSnoc(hash, fs, ByteField(face.bump), hostLittleEndian);
    fs := fs + [ByteField(face.bump)];
    FoldFieldsSnoc(hash, fs, ByteField(face.shiny), hostLittleEndian);
    fs := fs + [ByteField(face.shiny)];
    FoldFieldsSnoc(hash, fs, FloatField(FullbrightSentinel(face.fullbright)), hostLittleEndian);
    fs := fs + [FloatField(FullbrightSentinel(face.fullbright))];
    FoldFieldsSnoc(hash, fs, FloatField(face.glow), hostLittleEndian);
    fs := fs + [FloatField(face.glow)];
    MaterialFieldsInOrder(face);
  }

  /** One present face: its material, then the texture id's bytes. */
  function FaceFields(face: TextureEntryFace): seq<Field>
  {
    MaterialFields(face) + BytesFields(face.textureID.bytes)
  }

  /** A missing (null) face contributes nothing. */
  function OptFaceFields(face: Option<TextureEntryFace>): seq<Field>
  {
    if face.Some? then FaceFields(face.value) else []
  }

  /** Only faces 0 to 6 are examined. */
  const FACES_EXAMINED: nat := 7

  /** The faces with index in [lo, hi), in index order. */
  function FacesFields(te: TextureEntry, lo: nat, hi: nat): seq<Field>
    decreases hi
  {
    if hi <= lo then [] else FacesFields(te, lo, hi - 1) + OptFaceFields(GetFace(te, hi - 1))
  }

  /** One more face: its fields if it is present, nothing if it is null. */
  lemma FoldFacesStep(hash: ulong, te: TextureEntry, i: nat, hostLittleEndian: bool)
    ensures FoldFields(hash, FacesFields(te, 0, i + 1), hostLittleEndian)
            == FoldFields(FoldFields(hash, FacesFields(te, 0, i), hostLittleEndian),
                          OptFaceFields(GetFace(te, i)), hostLittleEndian)
  {
    FoldFieldsConcat(hash, FacesFields(te, 0, i), OptFaceFields(GetFace(te, i)), hostLittleEndian);
  }

  function TextureFields(textures: Option<TextureEntry>): seq<Field>
  {
    if textures.Some? then FacesFields(textures.value, 0, FACES_EXAMINED) else []
  }

  /** Every field GetMeshKey folds, in order. */
  function MeshKeyFields(prim: Primitive, size: Vector3, lod: Float32): seq<Field>
  {
    ShapeFields(prim.primData) + ScaleFields(size) + LodFields(lod)
    + SculptFields(prim.sculpt) + TextureFields(prim.textures)
  }

  /** Folding MeshKeyFields is folding its five parts one after another. */
  lemma FoldMeshKeyFields(prim: Primitive, size: Vector3, lod: Float32, hostLittleEndian: bool)
    ensures FoldFields(SEED, MeshKeyFields(prim, size, lod), hostLittleEndian)
            == var le := hostLittleEndian;
               var h1 := FoldFields(SEED, ShapeFields(prim.primData), le);
               var h2 := FoldFields(h1, ScaleFields(size), le);
               var h3 := FoldFields(h2, LodFields(lod), le);
               var h4 := FoldFields(h3, SculptFields(prim.sculpt), le);
               FoldFields(h4, TextureFields(prim.textures), le)
  {
    var le := hostLittleEndian;
    var a := ShapeFields(prim.primData);
    var b := ScaleFields(size);
    var c := LodFields(lod);
    var d := SculptFields(prim.sculpt);
    var e := TextureFields(prim.textures);
    FoldFieldsConcat(SEED, a + b + c + d, e, le);
    FoldFieldsConcat(SEED, a + b + c, d, le);
    FoldFieldsConcat(SEED, a + b, c, le);
    FoldFieldsConcat(SEED, a, b, le);
  }

  /** Every byte GetMeshKey folds, in order. */
  function MeshKeyBytes(prim: Primitive, size: Vector3, lod: Float32, hostLittleEndian: bool): seq<byte>
  {
    EncodeAll(MeshKeyFields(prim, size, lod), hostLittleEndian)
  }

  /**
   * The level of detail as a fresh four-byte buffer: the host-order bytes of
   * the float, reversed in place on a big-endian host. On either host the
   * buffer holds the little-endian encoding.
   */
  method LodBytes(lod: Float32, hostLittleEndian: bool) returns (lodBytes: array<byte>)
    ensures fresh(lodBytes)
    ensures lodBytes[..] == LittleEndian(lod)
  {
    lodBytes := new byte[4];
    var hostBytes := GetBytes(lod, hostLittleEndian);
    // Copy the four host-order bytes into the buffer.
    lodBytes[0], lodBytes[1], lodBytes[2], lodBytes[3] := hostBytes[0], hostBytes[1], hostBytes[2], hostBytes[3];
    if !hostLittleEndian {
      // On a big-endian host, reverse them in place.
      lodBytes[0], lodBytes[3] := lodBytes[3], lodBytes[0];
      lodBytes[1], lodBytes[2] := lodBytes[2], lodBytes[1];
    }
    assert lodBytes[..] == LittleEndian(lod);
  }

  /** A loop folding every byte of `bytes`, in order, through the byte overload. */
  method HashBytes(hash: ulong, bytes: seq<byte>, ghost hostLittleEndian: bool) returns (h: ulong)
    ensures h == FoldFields(hash, BytesFields(bytes), hostLittleEndian)
  {
    h := hash;
    FoldBytesEnds(hash, bytes, hostLittleEndian);
    for i := 0 to |bytes|
      invariant h == FoldFields(hash, BytesFields(bytes[..i]), hostLittleEndian)
    {
      h := Djb2Byte(h, bytes[i]);
      FoldBytesStep(hash, bytes, i, hostLittleEndian);
    }
  }

  /** The hash steps for one present texture face: its fourteen material fields, then its texture id's bytes. */
  method HashFace(hash: ulong, face: TextureEntryFace, le: bool) returns (h: ulong)
    ensures h == FoldFields(hash, FaceFields(face), le)
  {
    h := hash;
    h := Djb2Float(h, face.rgba.r, le);
    h := Djb2Float(h, face.rgba.g, le);
    h := Djb2Float(h, face.rgba.b, le);
    h := Djb2Float(h, face.rgba.a, le);
    h := Djb2Float(h, face.repeatU, le);
    h := Djb2Float(h, face.repeatV, le);
    h := Djb2Float(h, face.offsetU, le);
    h := Djb2Float(h, face.offsetV, le);
    h := Djb2Float(h, face.rotation, le);
    h := Djb2Float(h, face.glow, le);
    h := Djb2Byte(h, face.bump);
    h := Djb2Byte(h, face.shiny);
    h := Djb2Float(h, if face.fullbright then ONE else HALF, le);
    h := Djb2Float(h, face.glow, le);
    FoldMaterialFields(hash, face, le);
    h := HashBytes(h, face.textureID.bytes, le);
    FoldFieldsConcat(hash, MaterialFields(face), BytesFields(face.textureID.bytes), le);
  }

  /**
   * `GetMeshKey(prim, size, lod)` on a host of the given byte order: the
   * byte step folded from the seed 5381 over MeshKeyBytes.
   */
  method GetMeshKey(prim: Primitive, size: Vector3, lod: Float32, hostLittleEndian: bool)
    returns (hash: ulong)
    ensures hash == Fold(SEED, MeshKeyBytes(prim, size, lod, hostLittleEndian))
  {
    var le := hostLittleEndian;
    var pd := prim.primData;

    hash := SEED;
    hash := Djb2Byte(hash, pd.pathCurve);
    hash := Djb2Float(hash, pd.profileHollow, le);
    hash := Djb2Byte(hash, pd.profileHole);
    hash := Djb2Float(hash, pd.pathBegin, le);
    hash := Djb2Float(hash, pd.pathEnd, le);
    hash := Djb2Float(hash, pd.pathScaleX, le);
    hash := Djb2Float(hash, pd.pathScaleY, le);
    hash := Djb2Float(hash, pd.pathShearX, le);
    hash := Djb2Float(hash, pd.pathShearY, le);
    hash := Djb2Byte(hash, pd.pathTwist);
    hash := Djb2Byte(hash, pd.pathTwistBegin);
    hash := Djb2Byte(hash, pd.pathRadiusOffset);
    hash := Djb2Byte(hash, pd.pathTaperX);
    hash := Djb2Byte(hash, pd.pathTaperY);
    hash := Djb2Float(hash, pd.pathRevolutions, le);
    hash := Djb2Byte(hash, pd.pathSkew);
    hash := Djb2Float(hash, pd.profileBegin, le);
    hash := Djb2Float(hash, pd.profileEnd, le);
    hash := Djb2Float(hash, pd.profileHollow, le);
    ghost var h1 := hash;

    hash := Djb2Float(hash, size.x, le);
    hash := Djb2Float(hash, size.y, le);
    hash := Djb2Float(hash, size.z, le);
    ghost var h2 := hash;

    // The level of detail, reversed on a big-endian host so that it is
    // always folded least significant byte first.
    var lodBytes := LodBytes(lod, le);
    hash := HashBytes(hash, lodBytes[..], le);
    ghost var h3 := hash;

    // The sculpt or mesh asset id.
    if prim.sculpt.Some? {
      hash := HashBytes(hash, prim.sculpt.value.sculptTexture.bytes, le);
    }
    ghost var h4 := hash;
    assert h4 == FoldFields(h3, SculptFields(prim.sculpt), le);

    // The material and texture id of each of the first seven faces that is present.
    if prim.textures.Some? {
      var te := prim.textures.value;
      for ii := 0 to FACES_EXAMINED
        invariant hash == FoldFields(h4, FacesFields(te, 0, ii), le)
      {
        var texFace := GetFace(te, ii);
        if texFace.Some? {
          hash := HashFace(hash, texFace.value, le);
        }
        FoldFacesStep(h4, te, ii, le);
      }
    }
    assert hash == FoldFields(h4, TextureFields(prim.textures), le);

    assert hash == Fold(SEED, MeshKeyBytes(prim, size, lod, le)) by {
      FoldShapeFields(SEED, pd, le);
      FoldScaleFields(h1, size, le);
      FoldMeshKeyFields(prim, size, lod, le);
      FoldFieldsIsFold(SEED, MeshKeyFields(prim, size, lod), le);
    }
  }

  /** The inverse of 33 modulo 2^64: 33 * INV33 == 1 + 2 * 2^64. */
  const INV33: int := 0x0F83_E0F8_3E0F_83E1

  /** Numbers with the same remainder modulo 2^64 differ by a multiple of 2^64. */
  lemma SameRemainder(a: int, b: int)
    requires a % TWO_64 == b % TWO_64
    ensures a - b == (a / TWO_64 - b / TWO_64) * TWO_64
  {
    assert a == (a / TWO_64) * TWO_64 + a % TWO_64;
    assert b == (b / TWO_64) * TWO_64 + b % TWO_64;
  }

  /** 2^64 divides `d` when it divides 33 * d, because INV33 inverts 33 modulo 2^64. */
  lemma Cancel33(d: int, k: int)
    requires 33 * d == k * TWO_64
    ensures d == (INV33 * k - 2 * d) * TWO_64
  {
    assert INV33 * 33 == 1 + 2 * TWO_64;
    calc {
      d + 2 * TWO_64 * d;
      (1 + 2 * TWO_64) * d;
      (INV33 * 33) * d;
      INV33 * (33 * d);
      INV33 * (k * TWO_64);
      (INV33 * k) * TWO_64;
    }
  }

  /** A non-zero multiple of 2^64 is at least 2^64 away from 0. */
  lemma MultipleSign(q: int)
    ensures q >= 1 ==> q * TWO_64 >= TWO_64
    ensures q <= -1 ==> q * TWO_64 <= -TWO_64
  {
    if q >= 1 {
      assert q * TWO_64 == (q - 1) * TWO_64 + TWO_64;
    } else if q <= -1 {
      assert q * TWO_64 == (q + 1) * TWO_64 - TWO_64;
    }
  }

  /** The only multiple of 2^64 strictly between -2^64 and 2^64 is 0. */
  lemma SmallMultiple(d: int, q: int)
    requires d == q * TWO_64 && -TWO_64 < d < TWO_64
    ensures d == 0
  {
    MultipleSign(q);
  }

  /** Equal byte steps over the same byte came from equal hashes (33 is odd, so invertible). */
  lemma StepInjective(h1: ulong, h2: ulong, c: byte)
    ensures Djb2Byte(h1, c) == Djb2Byte(h2, c) <==> h1 == h2
  {
    if Djb2Byte(h1, c) == Djb2Byte(h2, c) {
      var a, b := h1 * 33 + c, h2 * 33 + c;
      SameRemainder(a, b);
      var k := a / TWO_64 - b / TWO_64;
      var d := h1 - h2;
      assert 33 * d == k * TWO_64;
      Cancel33(d, k);
      SmallMultiple(d, INV33 * k - 2 * d);
    }
  }

  /** From the same hash, different bytes give different results. */
  lemma StepSeparates(h: ulong, x: byte, y: byte)
    ensures Djb2Byte(h, x) == Djb2Byte(h, y) <==> x == y
  {
    if Djb2Byte(h, x) == Djb2Byte(h, y) {
      var a, b := h * 33 + x, h * 33 + y;
      SameRemainder(a, b);
      SmallMultiple(x - y, a / TWO_64 - b / TWO_64);
    }
  }

  /** Folding the same bytes from two different hashes gives two different results. */
  lemma {:induction false} FoldInjective(h1: ulong, h2: ulong, s: seq<byte>)
    ensures Fold(h1, s) == Fold(h2, s) <==> h1 == h2
    decreases |s|
  {
    if s != [] {
      FoldInjective(h1, h2, s[..|s| - 1]);
      StepInjective(Fold(h1, s[..|s| - 1]), Fold(h2, s[..|s| - 1]), s[|s| - 1]);
    }
  }

  /**
   * Changing a single byte of the folded sequence, keeping its position,
   * always changes the hash: the key tells apart inputs whose byte
   * sequences differ in exactly one place.
   */
  lemma OneByteChangesFold(hash: ulong, prefix: seq<byte>, x: byte, y: byte, suffix: seq<byte>)
    ensures Fold(hash, prefix + [x] + suffix) == Fold(hash, prefix + [y] + suffix) <==> x == y
  {
    FoldConcat(hash, prefix + [x], suffix);
    FoldConcat(hash, prefix + [y], suffix);
    FoldConcat(hash, prefix, [x]);
    FoldConcat(hash, prefix, [y]);
    assert [x][..0] == [] && [y][..0] == [];
    StepSeparates(Fold(hash, prefix), x, y);
    FoldInjective(Fold(hash, prefix + [x]), Fold(hash, prefix + [y]), suffix);
  }

  /** The level of detail contributes its little-endian bytes on either host. */
  lemma LodBytesHostIndependent(lod: Float32, hostLittleEndian: bool)
    ensures EncodeAll(LodFields(lod), hostLittleEndian) == LittleEndian(lod)
  {
    EncodeBytesFields(LittleEndian(lod), hostLittleEndian);
  }

  /** The sculpt reference contributes its id's bytes when present and nothing otherwise. */
  lemma SculptBytesOnlyWithSculpt(sculpt: Option<SculptData>, hostLittleEndian: bool)
    ensures sculpt.None? ==> SculptFields(sculpt) == []
    ensures sculpt.Some? ==> EncodeAll(SculptFields(sculpt), hostLittleEndian) == sculpt.value.sculptTexture.bytes
  {
    if sculpt.Some? {
      EncodeBytesFields(sculpt.value.sculptTexture.bytes, hostLittleEndian);
    }
  }

  /** Texture entries that agree on faces lo to hi - 1 contribute the same fields for those faces. */
  lemma {:induction false} FacesFieldsAgree(te1: TextureEntry, te2: TextureEntry, lo: nat, hi: nat)
    requires forall i :: lo <= i < hi ==> GetFace(te1, i) == GetFace(te2, i)
    ensures FacesFields(te1, lo, hi) == FacesFields(te2, lo, hi)
    decreases hi
  {
    if lo < hi {
      FacesFieldsAgree(te1, te2, lo, hi - 1);
    }
  }

  /** Faces from index 7 on never affect the key: only faces 0 to 6 are examined. */
  lemma OnlyFirstSevenFaces(te1: TextureEntry, te2: TextureEntry)
    requires forall i :: 0 <= i < FACES_EXAMINED ==> GetFace(te1, i) == GetFace(te2, i)
    ensures TextureFields(Some(te1)) == TextureFields(Some(te2))
  {
    FacesFieldsAgree(te1, te2, 0, FACES_EXAMINED);
  }

  /** Null faces contribute nothing: faces lo to hi - 1 all null gives no fields. */
  lemma {:induction false} NullFacesNothing(te: TextureEntry, lo: nat, hi: nat)
    requires forall i :: lo <= i < hi ==> GetFace(te, i).None?
    ensures FacesFields(te, lo, hi) == []
    decreases hi
  {
    if lo < hi {
      NullFacesNothing(te, lo, hi - 1);
    }
  }

  /** A texture entry whose first seven faces are all null hashes like no texture entry. */
  lemma AllNullFacesLikeNoTextures(te: TextureEntry)
    requires forall i :: 0 <= i < FACES_EXAMINED ==> GetFace(te, i).None?
    ensures TextureFields(Some(te)) == TextureFields(None)
  {
    NullFacesNothing(te, 0, FACES_EXAMINED);
  }

  /** Folding the same fields from two different hashes gives two different results. */
  lemma FoldFieldsInjective(h1: ulong, h2: ulong, fs: seq<Field>, hostLittleEndian: bool)
    ensures FoldFields(h1, fs, hostLittleEndian) == FoldFields(h2, fs, hostLittleEndian) <==> h1 == h2
  {
    FoldFieldsIsFold(h1, fs, hostLittleEndian);
    FoldFieldsIsFold(h2, fs, hostLittleEndian);
    FoldInjective(h1, h2, EncodeAll(fs, hostLittleEndian));
  }

  /** The two full-bright sentinels fold to different hashes from any hash, on either host. */
  lemma SentinelsDiffer(hash: ulong, hostLittleEndian: bool)
    ensures Djb2Float(hash, ONE, hostLittleEndian) != Djb2Float(hash, HALF, hostLittleEndian)
  {
    if hostLittleEndian {
      assert GetBytes(ONE, true) == [0x00, 0x00] + [0x80] + [0x3F];
      assert GetBytes(HALF, true) == [0x00, 0x00] + [0x00] + [0x3F];
      OneByteChangesFold(hash, [0x00, 0x00], 0x80, 0x00, [0x3F]);
    } else {
      assert GetBytes(ONE, false) == [0x3F] + [0x80] + [0x00, 0x00];
      assert GetBytes(HALF, false) == [0x3F] + [0x00] + [0x00, 0x00];
      OneByteChangesFold(hash, [0x3F], 0x80, 0x00, [0x00, 0x00]);
    }
  }

  /** Toggling a face's full-bright flag changes the hash of its material. */
  lemma FullbrightChangesMaterial(hash: ulong, face: TextureEntryFace, hostLittleEndian: bool)
    ensures FoldFields(hash, MaterialFields(face), hostLittleEndian)
            != FoldFields(hash, MaterialFields(face.(fullbright := !face.fullbright)), hostLittleEndian)
  {
    var le := hostLittleEndian;
    var other := face.(fullbright := !face.fullbright);
    FoldMaterialFields(hash, face, le);
    FoldMaterialFields(hash, other, le);
    var h12 := FoldFields(hash, MaterialFields(face)[..12], le);
    assert MaterialFields(face)[..12] == MaterialFields(other)[..12];
    FoldFieldsConcat(hash, MaterialFields(face)[..12], MaterialFields(face)[12..], le);
    FoldFieldsConcat(hash, MaterialFields(other)[..12], MaterialFields(other)[12..], le);
    assert MaterialFields(face)[..12] + MaterialFields(face)[12..] == MaterialFields(face);
    assert MaterialFields(other)[..12] + MaterialFields(other)[12..] == MaterialFields(other);
    assert MaterialFields(face)[12..] == [FloatField(FullbrightSentinel(face.fullbright)), FloatField(face.glow)];
    assert MaterialFields(other)[12..] == [FloatField(FullbrightSentinel(other.fullbright)), FloatField(face.glow)];
    SentinelsDiffer(h12, le);
    var a, b := Djb2Float(h12, FullbrightSentinel(face.fullbright), le), Djb2Float(h12, FullbrightSentinel(other.fullbright), le);
    FoldFieldsSnoc(h12, [FloatField(FullbrightSentinel(face.fullbright))], FloatField(face.glow), le);
    FoldFieldsSnoc(h12, [FloatField(FullbrightSentinel(other.fullbright))], FloatField(face.glow), le);
    FoldFieldsSnoc(h12, [], FloatField(FullbrightSentinel(face.fullbright)), le);
    FoldFieldsSnoc(h12, [], FloatField(FullbrightSentinel(other.fullbright)), le);
    FoldFieldsInjective(a, b, [FloatField(face.glow)], le);
    assert FoldFields(a, [FloatField(face.glow)], le) == Djb2Float(a, face.glow, le) by {
      FoldFieldsSnoc(a, [], FloatField(face.glow), le);
    }
    assert FoldFields(b, [FloatField(face.glow)], le) == Djb2Float(b, face.glow, le) by {
      FoldFieldsSnoc(b, [], FloatField(face.glow), le);
    }
  }

  /** The faces in [lo, hi) are those in [lo, mid) followed by those in [mid, hi). */
  lemma {:induction false} FacesFieldsSplit(te: TextureEntry, lo: nat, mid: nat, hi: nat)
    requires lo <= mid <= hi
    ensures FacesFields(te, lo, hi) == FacesFields(te, lo, mid) + FacesFields(te, mid, hi)
    decreases hi
  {
    if mid == hi {
      assert FacesFields(te, lo, hi) + [] == FacesFields(te, lo, hi);
    } else {
      FacesFieldsSplit(te, lo, mid, hi - 1);
      AppendAssoc(FacesFields(te, lo, mid), FacesFields(te, mid, hi - 1), OptFaceFields(GetFace(te, hi - 1)));
    }
  }

  /** `te` with the full-bright flag of its face `k` flipped. */
  function ToggleFullbright(te: TextureEntry, k: nat): (r: TextureEntry)
    requires GetFace(te, k).Some?
    ensures |r.faces| == |te.faces|
    ensures forall i: nat :: i != k ==> GetFace(r, i) == GetFace(te, i)
    ensures GetFace(r, k).Some? && GetFace(r, k).value.fullbright == !GetFace(te, k).value.fullbright
  {
    var face := GetFace(te, k).value;
    TextureEntry(te.faces[k := Some(face.(fullbright := !face.fullbright))])
  }

  /** Toggling the full-bright flag of a face changes the fold over that face's fields. */
  lemma FullbrightChangesFace(hash: ulong, face: TextureEntryFace, hostLittleEndian: bool)
    ensures FoldFields(hash, FaceFields(face), hostLittleEndian)
            != FoldFields(hash, FaceFields(face.(fullbright := !face.fullbright)), hostLittleEndian)
  {
    var le := hostLittleEndian;
    var other := face.(fullbright := !face.fullbright);
    FoldFieldsConcat(hash, MaterialFields(face), BytesFields(face.textureID.bytes), le);
    FoldFieldsConcat(hash, MaterialFields(other), BytesFields(face.textureID.bytes), le);
    FullbrightChangesMaterial(hash, face, le);
    FoldFieldsInjective(FoldFields(hash, MaterialFields(face), le), FoldFields(hash, MaterialFields(other), le),
                        BytesFields(face.textureID.bytes), le);
  }

  /** Toggling the full-bright flag of a present face k < 7 changes the fold over the examined faces. */
  lemma FullbrightChangesFaces(hash: ulong, te: TextureEntry, k: nat, hostLittleEndian: bool)
    requires k < FACES_EXAMINED && GetFace(te, k).Some?
    ensures FoldFields(hash, FacesFields(te, 0, FACES_EXAMINED), hostLittleEndian)
            != FoldFields(hash, FacesFields(ToggleFullbright(te, k), 0, FACES_EXAMINED), hostLittleEndian)
  {
    var le := hostLittleEndian;
    var te2 := ToggleFullbright(te, k);
    var face := GetFace(te, k).value;
    assert GetFace(te2, k) == Some(face.(fullbright := !face.fullbright));
    FacesFieldsAgree(te, te2, 0, k);
    FacesFieldsAgree(te, te2, k + 1, FACES_EXAMINED);
    FacesFieldsSplit(te, 0, k, FACES_EXAMINED);
    FacesFieldsSplit(te2, 0, k, FACES_EXAMINED);
    FacesFieldsSplit(te, k, k + 1, FACES_EXAMINED);
    FacesFieldsSplit(te2, k, k + 1, FACES_EXAMINED);
    assert FacesFields(te, k, k + 1) == FaceFields(face) by {
      assert FacesFields(te, k, k) == [];
    }
    assert FacesFields(te2, k, k + 1) == FaceFields(face.(fullbright := !face.fullbright)) by {
      assert FacesFields(te2, k, k) == [];
    }
    var before := FacesFields(te, 0, k);
    var after := FacesFields(te, k + 1, FACES_EXAMINED);
    var hb := FoldFields(hash, before, le);
    FullbrightChangesFace(hb, face, le);
    FoldFieldsConcat(hash, before, FacesFields(te, k, FACES_EXAMINED), le);
    FoldFieldsConcat(hash, before, FacesFields(te2, k, FACES_EXAMINED), le);
    FoldFieldsConcat(hb, FacesFields(te, k, k + 1), after, le);
    FoldFieldsConcat(hb, FacesFields(te2, k, k + 1), after, le);
    FoldFieldsInjective(FoldFields(hb, FacesFields(te, k, k + 1), le),
                        FoldFields(hb, FacesFields(te2, k, k + 1), le), after, le);
  }

  /**
   * The full-bright flag of every examined face is part of the key: toggling
   * it on a present face k < 7 changes the key, on either host.
   */
  lemma FullbrightChangesKey(prim: Primitive, size: Vector3, lod: Float32, hostLittleEndian: bool, k: nat)
    requires prim.textures.Some? && k < FACES_EXAMINED && GetFace(prim.textures.value, k).Some?
    ensures Fold(SEED, MeshKeyBytes(prim, size, lod, hostLittleEndian))
            != Fold(SEED, MeshKeyBytes(prim.(textures := Some(ToggleFullbright(prim.textures.value, k))),
                                       size, lod, hostLittleEndian))
  {
    var le := hostLittleEndian;
    var te := prim.textures.value;
    var prim2 := prim.(textures := Some(ToggleFullbright(te, k)));
    var p := ShapeFields(prim.primData) + ScaleFields(size) + LodFields(lod) + SculptFields(prim.sculpt);
    assert MeshKeyFields(prim, size, lod) == p + TextureFields(prim.textures);
    assert MeshKeyFields(prim2, size, lod) == p + TextureFields(prim2.textures);
    FullbrightChangesFaces(FoldFields(SEED, p, le), te, k, le);
    FoldFieldsConcat(SEED, p, TextureFields(prim.textures), le);
    FoldFieldsConcat(SEED, p, TextureFields(prim2.textures), le);
    FoldFieldsIsFold(SEED, MeshKeyFields(prim, size, lod), le);
    FoldFieldsIsFold(SEED, MeshKeyFields(prim2, size, lod), le);
  }
}
