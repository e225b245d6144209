/**
 Column metadata byte by byte: what follows the number of each type, how wide it is,
 and where reading ends, in plain arithmetic on the bytes.
 */
module MetadataWire {
  import opened Wrappers
  import opened Bytes
  import opened MetadataParser

  /** The number of the type. */
  function TypeAt(o: nat, old72: bool): nat {
    o + if old72 then 4 else 6
  }

  function Word(b: seq<byte>, o: nat): nat
    requires o + 2 <= |b|
  {
    b[o] as int + 0x100 * b[o + 1] as int
  }

  function Long(b: seq<byte>, o: nat): nat
    requires o + 4 <= |b|
  {
    b[o] as int + 0x100 * b[o + 1] as int + 0x1_0000 * b[o + 2] as int + 0x100_0000 * b[o + 3] as int
  }

  /** What comes ahead of the fields of the type: the user type, the flags and the type. */
  function Front(b: seq<byte>, o: nat, old72: bool): Metadata
    requires TypeAt(o, old72) < |b|
  {
    if old72 then Base(Word(b, o), Word(b, o + 2), b[o + 4]) else Base(Long(b, o), Word(b, o + 4), b[o + 6])
  }

  lemma {:induction false} Numbers(b: seq<byte>, o: nat)
    ensures ReadUInt8(b, o) == if o + 1 <= |b| then Done(At(b[o], o + 1)) else NotEnough(o + 1)
    ensures TakeUInt16LE(b, o) == if o + 2 <= |b| then Done(At(Word(b, o), o + 2)) else NotEnough(o + 2)
    ensures TakeUInt32LE(b, o) == if o + 4 <= |b| then Done(At(Long(b, o), o + 4)) else NotEnough(o + 4)
  {
  }

  lemma {:induction false} FrontIs(b: seq<byte>, o: nat, old72: bool)
    requires TypeAt(o, old72) < |b|
    ensures ReadMetadata(b, o, old72) == ReadTail(b, TypeAt(o, old72) + 1, Front(b, o, old72))
  {
    hide ReadTail, ReadUInt8, TakeUInt16LE, TakeUInt32LE, Word, Long;
    Numbers(b, o);
    Numbers(b, o + 2);
    Numbers(b, o + 4);
    Numbers(b, o + 6);
  }

  /** The five bytes of a collation are one number: 20 bits of locale, 8 of flags, 4 of version, 8 of sort order. */
  predicate CollationAt(b: seq<byte>, o: nat, c: Collation)
    requires o + 5 <= |b|
  {
    && c.lcid < 0x10_0000 && c.flags < 0x100 && c.version < 0x10
    && c.lcid + 0x10_0000 * c.flags + 0x1000_0000 * c.version + 0x1_0000_0000 * c.sortId == Long(b, o) + 0x1_0000_0000 * b[o + 4] as int
  }

  lemma {:induction false} CollationNumber(b: seq<byte>, o: nat)
    requires o + 5 <= |b|
    ensures CollationAt(b, o, FromBuffer(b[o..o + 5])) && ReadCollation(b, o) == Done(At(FromBuffer(b[o..o + 5]), o + 5))
  {
  }

  /** No other collation has this number. */
  lemma {:induction false} OneCollation(b: seq<byte>, o: nat, c: Collation, d: Collation)
    requires o + 5 <= |b| && CollationAt(b, o, c) && CollationAt(b, o, d)
    ensures c == d
  {
    assert c.sortId == d.sortId;
    assert c.version == d.version;
  }

  // The fields of each type, by its number.

  // Null, TinyInt, Bit, SmallInt, Int, SmallDateTime, Real, Money, DateTime, Float, SmallMoney, BigInt; Date
  const NOTHING: set<int> := {0x1F, 0x30, 0x32, 0x34, 0x38, 0x3A, 0x3B, 0x3C, 0x3D, 0x3E, 0x7A, 0x7F, 0x28}
  // UniqueIdentifier, IntN, BitN, FloatN, MoneyN, DateTimeN
  const BYTE_LENGTH: set<int> := {0x24, 0x26, 0x68, 0x6D, 0x6E, 0x6F}
  // VarBinary, Binary
  const WORD_LENGTH: set<int> := {0xA5, 0xAD}
  // Image, Variant
  const LONG_LENGTH: set<int> := {0x22, 0x62}
  // VarChar, Char, NVarChar, NChar
  const WORD_COLLATION: set<int> := {0xA7, 0xAF, 0xE7, 0xEF}
  // Text, NText
  const LONG_COLLATION: set<int> := {0x23, 0x63}
  // Time, DateTime2, DateTimeOffset
  const SCALE: set<int> := {0x29, 0x2A, 0x2B}
  // DecimalN, NumericN
  const PRECISION_SCALE: set<int> := {0x6A, 0x6C}
  const XML := 0xF1
  const UDT_NUMBER := 0xF0

  lemma {:induction false} LayoutByNumber(t: byte)
    ensures LayoutOf(t) == Layout.Nothing <==> t in NOTHING
    ensures LayoutOf(t) == Length8 <==> t in BYTE_LENGTH
    ensures LayoutOf(t) == Length16 <==> t in WORD_LENGTH
    ensures LayoutOf(t) == Length32 <==> t in LONG_LENGTH
    ensures LayoutOf(t) == Length16Collation <==> t in WORD_COLLATION
    ensures LayoutOf(t) == Length32Collation <==> t in LONG_COLLATION
    ensures LayoutOf(t) == Layout.Scale <==> t in SCALE
    ensures LayoutOf(t) == PrecisionScale <==> t in PRECISION_SCALE
    ensures LayoutOf(t) == XmlSchema <==> t == XML
    ensures LayoutOf(t) == UDT <==> t == UDT_NUMBER
  {
    NothingByNumber(t);
    LengthByNumber(t);
    OtherByNumber(t);
    hide LayoutOf, NOTHING, BYTE_LENGTH, WORD_LENGTH, LONG_LENGTH, WORD_COLLATION, LONG_COLLATION, SCALE, PRECISION_SCALE;
  }

  lemma {:induction false} NothingByNumber(t: byte)
    ensures LayoutOf(t) == Layout.Nothing <==> t in NOTHING
  {
  }

  lemma {:induction false} LengthByNumber(t: byte)
    ensures LayoutOf(t) == Length8 <==> t in BYTE_LENGTH
    ensures LayoutOf(t) == Length16 <==> t in WORD_LENGTH
    ensures LayoutOf(t) == Length32 <==> t in LONG_LENGTH
  {
  }

  lemma {:induction false} OtherByNumber(t: byte)
    ensures LayoutOf(t) == Length16Collation <==> t in WORD_COLLATION
    ensures LayoutOf(t) == Length32Collation <==> t in LONG_COLLATION
    ensures LayoutOf(t) == Layout.Scale <==> t in SCALE
    ensures LayoutOf(t) == PrecisionScale <==> t in PRECISION_SCALE
    ensures LayoutOf(t) == XmlSchema <==> t == XML
    ensures LayoutOf(t) == UDT <==> t == UDT_NUMBER
  {
  }

  /** Nothing follows; nothing is missing. */
  lemma {:induction false} NothingFollows(b: seq<byte>, o: nat, old72: bool)
    requires TypeAt(o, old72) < |b| && b[TypeAt(o, old72)] in NOTHING
    ensures ReadMetadata(b, o, old72) == Done(At(Front(b, o, old72), TypeAt(o, old72) + 1))
  {
    FrontIs(b, o, old72);
    LayoutByNumber(b[TypeAt(o, old72)]);
    hide ReadMetadata, LayoutOf, Word, Long, NOTHING;
  }

  /** A length of one byte, of two or of four. */
  lemma {:induction false} LengthFollows(b: seq<byte>, o: nat, old72: bool)
    requires TypeAt(o, old72) < |b| && b[TypeAt(o, old72)] as int in BYTE_LENGTH + WORD_LENGTH + LONG_LENGTH
    ensures
      var m, t, at := Front(b, o, old72), b[TypeAt(o, old72)], TypeAt(o, old72) + 1;
      var width := if t in BYTE_LENGTH then 1 else if t in WORD_LENGTH then 2 else 4;
      ReadMetadata(b, o, old72) ==
        if |b| < at + width then NotEnough(at + width)
        else Done(At(m.(dataLength := Some(if width == 1 then b[at] as int else if width == 2 then Word(b, at) else Long(b, at))), at + width))
  {
    FrontIs(b, o, old72);
    LayoutByNumber(b[TypeAt(o, old72)]);
    Numbers(b, TypeAt(o, old72) + 1);
    hide ReadMetadata, LayoutOf, Word, Long, ReadUInt8, TakeUInt16LE, TakeUInt32LE, BYTE_LENGTH, WORD_LENGTH, LONG_LENGTH;
  }

  /** A length of two bytes or of four, and a collation. */
  lemma {:induction false} CollationFollows(b: seq<byte>, o: nat, old72: bool, c: Collation)
    requires TypeAt(o, old72) < |b| && b[TypeAt(o, old72)] as int in WORD_COLLATION + LONG_COLLATION
    ensures
      var m, t, at := Front(b, o, old72), b[TypeAt(o, old72)], TypeAt(o, old72) + 1;
      var width := if t in WORD_COLLATION then 2 else 4;
      if |b| < at + width then ReadMetadata(b, o, old72) == NotEnough(at + width)
      else if |b| < at + width + 5 then ReadMetadata(b, o, old72) == NotEnough(at + width + 5)
      else
        CollationAt(b, at + width, c) ==>
          ReadMetadata(b, o, old72) ==
            Done(At(m.(dataLength := Some(if width == 2 then Word(b, at) else Long(b, at)), collation := Some(c)), at + width + 5))
  {
    var at := TypeAt(o, old72) + 1;
    var width := if b[TypeAt(o, old72)] in WORD_COLLATION then 2 else 4;
    FrontIs(b, o, old72);
    LayoutByNumber(b[TypeAt(o, old72)]);
    Numbers(b, at);
    if |b| >= at + width + 5 {
      CollationNumber(b, at + width);
      if CollationAt(b, at + width, c) {
        OneCollation(b, at + width, c, FromBuffer(b[at + width..at + width + 5]));
      }
    } else {
      ShortCollation(b, at + width);
    }
    hide ReadMetadata, LayoutOf, Word, Long, ReadUInt8, TakeUInt16LE, TakeUInt32LE, ReadCollation, CollationAt, WORD_COLLATION, LONG_COLLATION;
  }

  lemma {:induction false} ShortCollation(b: seq<byte>, o: nat)
    requires |b| < o + 5
    ensures ReadCollation(b, o) == NotEnough(o + 5)
  {
  }

  /** A scale; or a length, a precision and a scale; each of one byte. */
  lemma {:induction false} ScaleFollows(b: seq<byte>, o: nat, old72: bool)
    requires TypeAt(o, old72) < |b| && b[TypeAt(o, old72)] as int in SCALE + PRECISION_SCALE
    ensures
      var m, t, at := Front(b, o, old72), b[TypeAt(o, old72)], TypeAt(o, old72) + 1;
      ReadMetadata(b, o, old72) ==
        if t in SCALE then if |b| <= at then NotEnough(at + 1) else Done(At(m.(scale := Some(b[at])), at + 1))
        else if |b| < at + 3 then NotEnough(|b| + 1)
        else Done(At(m.(dataLength := Some(b[at] as int), precision := Some(b[at + 1]), scale := Some(b[at + 2])), at + 3))
  {
    FrontIs(b, o, old72);
    LayoutByNumber(b[TypeAt(o, old72)]);
    Numbers(b, TypeAt(o, old72) + 1);
    Numbers(b, TypeAt(o, old72) + 2);
    Numbers(b, TypeAt(o, old72) + 3);
    hide ReadMetadata, LayoutOf, Word, Long, ReadUInt8, TakeUInt16LE, TakeUInt32LE, SCALE, PRECISION_SCALE;
  }

  /** Any other number fails: it stands for no type, or for one that is not supported here. */
  lemma {:induction false} NothingElse(b: seq<byte>, o: nat, old72: bool)
    requires TypeAt(o, old72) < |b|
    ensures
      var t := b[TypeAt(o, old72)];
      ReadMetadata(b, o, old72) == Failed(t) <==>
        t as int !in NOTHING + BYTE_LENGTH + WORD_LENGTH + LONG_LENGTH + WORD_COLLATION + LONG_COLLATION + SCALE + PRECISION_SCALE
          + {XML, UDT_NUMBER}
  {
    FrontIs(b, o, old72);
    LayoutByNumber(b[TypeAt(o, old72)]);
    NeverFails(b, TypeAt(o, old72) + 1, Front(b, o, old72));
    hide ReadMetadata, LayoutOf, ReadTail, Word, Long;
  }

  lemma {:induction false} NeverFails(b: seq<byte>, o: nat, m: Metadata)
    requires o <= |b|
    ensures ReadTail(b, o, m) == Failed(m.typeNumber) <==> LayoutOf(m.typeNumber) in {Unsupported, Unknown}
  {
    TextsNeverFail(b, o);
    hide LayoutOf, ReadSchema, ReadUDTInfo;
  }

  lemma {:induction false} TextsNeverFail(b: seq<byte>, o: nat)
    ensures !ReadSchema(b, o).Failed? && !ReadUDTInfo(b, o).Failed?
  {
    hide ReadUcs2;
  }

  // Texts.

  /** A text with its length in one byte; where it ends. */
  predicate ShortText(b: seq<byte>, o: nat, t: seq<CodeUnit>) {
    o + 1 + 2 * |t| <= |b| && b[o] as int == |t| && forall i | 0 <= i < |t| :: Word(b, o + 1 + 2 * i) == t[i]
  }

  predicate LongText(b: seq<byte>, o: nat, t: seq<CodeUnit>) {
    o + 2 + 2 * |t| <= |b| && Word(b, o) == |t| && forall i | 0 <= i < |t| :: Word(b, o + 2 + 2 * i) == t[i]
  }

  lemma {:induction false} UnitsAt(b: seq<byte>, o: nat, t: seq<CodeUnit>)
    requires o + 2 * |t| <= |b| && forall i | 0 <= i < |t| :: Word(b, o + 2 * i) == t[i]
    ensures Holds(b, o, Ucs2(t))
  {
    var s := Ucs2(t);
    forall k | 0 <= k < |s| ensures b[o + k] == s[k] {
      var i := k / 2;
      Ucs2Bytes(t, i);
      assert Word(b, o + 2 * i) == t[i];
      assert k == 2 * i || k == 2 * i + 1;
    }
    assert b[o..o + |s|] == s;
  }

  lemma {:induction false} ShortTextRead(b: seq<byte>, o: nat, t: seq<CodeUnit>)
    requires ShortText(b, o, t)
    ensures ReadBVarChar(b, o) == Done(At(t, o + 1 + 2 * |t|))
  {
    UnitsAt(b, o + 1, t);
    assert Holds(b, o, [|t|]);
    HoldsBoth(b, o, [|t|], Ucs2(t));
    hide Holds, Ucs2, ReadBVarChar;
    CharsExact(b, o, t, o + 1 + 2 * |t|);
  }

  lemma {:induction false} LongTextRead(b: seq<byte>, o: nat, t: seq<CodeUnit>)
    requires LongText(b, o, t)
    ensures ReadUsVarChar(b, o) == Done(At(t, o + 2 + 2 * |t|))
  {
    UnitsAt(b, o + 2, t);
    assert Holds(b, o, UInt16LE(|t|));
    HoldsBoth(b, o, UInt16LE(|t|), Ucs2(t));
    hide Holds, Ucs2, ReadUsVarChar, UInt16LE;
    CharsExact(b, o, t, o + 2 + 2 * |t|);
  }

  predicate SchemaAt(b: seq<byte>, at: nat, s: Schema, end: nat) {
    var at1 := at + 2 + 2 * |s.dbname|;
    var at2 := at1 + 1 + 2 * |s.owningSchema|;
    && at < |b| && b[at] == 1 && ShortText(b, at + 1, s.dbname) && ShortText(b, at1, s.owningSchema)
    && LongText(b, at2, s.xmlSchemaCollection) && end == at2 + 2 + 2 * |s.xmlSchemaCollection|
  }

  lemma {:induction false} SchemaRead(b: seq<byte>, at: nat, s: Schema, end: nat)
    requires SchemaAt(b, at, s, end)
    ensures ReadSchema(b, at) == Done(At(Some(s), end))
  {
    var at1 := at + 2 + 2 * |s.dbname|;
    var at2 := at1 + 1 + 2 * |s.owningSchema|;
    Numbers(b, at);
    ShortTextRead(b, at + 1, s.dbname);
    ShortTextRead(b, at1, s.owningSchema);
    LongTextRead(b, at2, s.xmlSchemaCollection);
    hide ReadUInt8, ReadBVarChar, ReadUsVarChar, ShortText, LongText, Word, Long, TakeUInt16LE, TakeUInt32LE;
    assert ReadNames(b, at + 1) == Done(At(s, end));
    hide ReadNames;
  }

  lemma {:induction false} NoSchemaRead(b: seq<byte>, at: nat)
    ensures |b| <= at ==> ReadSchema(b, at) == NotEnough(at + 1)
    ensures at < |b| && b[at] != 1 ==> ReadSchema(b, at) == Done(At(None, at + 1))
  {
    Numbers(b, at);
    hide ReadUInt8, ReadNames;
  }

  /** A schema, announced by a one: database, owning schema and collection, in this order; any other byte announces none. */
  lemma {:induction false} SchemaFollows(b: seq<byte>, o: nat, old72: bool, s: Schema, end: nat)
    requires TypeAt(o, old72) < |b| && b[TypeAt(o, old72)] as int == XML
    ensures
      var m, at := Front(b, o, old72), TypeAt(o, old72) + 1;
      if |b| <= at then ReadMetadata(b, o, old72) == NotEnough(at + 1)
      else if b[at] != 1 then ReadMetadata(b, o, old72) == Done(At(m, at + 1))
      else SchemaAt(b, at, s, end) ==> ReadMetadata(b, o, old72) == Done(At(m.(schema := Some(s)), end))
  {
    var at := TypeAt(o, old72) + 1;
    FrontIs(b, o, old72);
    LayoutByNumber(b[TypeAt(o, old72)]);
    NoSchemaRead(b, at);
    if SchemaAt(b, at, s, end) {
      SchemaRead(b, at, s, end);
    }
    hide ReadMetadata, LayoutOf, Word, Long, ReadSchema, SchemaAt;
  }

  predicate UDTAt(b: seq<byte>, at: nat, u: UDTInfo, end: nat) {
    var at1 := at + 3 + 2 * |u.dbname|;
    var at2 := at1 + 1 + 2 * |u.owningSchema|;
    var at3 := at2 + 1 + 2 * |u.typeName|;
    && |b| >= at + 2 && Word(b, at) == u.maxByteSize && ShortText(b, at + 2, u.dbname) && ShortText(b, at1, u.owningSchema)
    && ShortText(b, at2, u.typeName) && LongText(b, at3, u.assemblyName) && end == at3 + 2 + 2 * |u.assemblyName|
  }

  lemma {:induction false} UDTRead(b: seq<byte>, at: nat, u: UDTInfo, end: nat)
    requires UDTAt(b, at, u, end)
    ensures ReadUDTInfo(b, at) == Done(At(u, end))
  {
    var at3 := at + 5 + 2 * |u.dbname| + 2 * |u.owningSchema| + 2 * |u.typeName|;
    hide TakeUInt16LE, TakeUInt32LE, ReadUInt8, ReadTypeNames, ReadUsVarChar, ShortText, LongText, Word, Long;
    Numbers(b, at);
    NamesRead(b, at + 2, u.dbname, u.owningSchema, u.typeName);
    LongTextRead(b, at3, u.assemblyName);
  }

  lemma {:induction false} NamesRead(b: seq<byte>, at: nat, x: seq<CodeUnit>, y: seq<CodeUnit>, z: seq<CodeUnit>)
    requires ShortText(b, at, x) && ShortText(b, at + 1 + 2 * |x|, y) && ShortText(b, at + 2 + 2 * |x| + 2 * |y|, z)
    ensures ReadTypeNames(b, at) == Done(At((x, y, z), at + 3 + 2 * |x| + 2 * |y| + 2 * |z|))
  {
    var at1 := at + 1 + 2 * |x|;
    var at2 := at1 + 1 + 2 * |y|;
    hide ReadBVarChar, ShortText, Word;
    ShortTextRead(b, at, x);
    ShortTextRead(b, at1, y);
    assert at2 == at + 2 + 2 * |x| + 2 * |y|;
    ShortTextRead(b, at2, z);
  }

  /** A user-defined type: its largest size, and the names of its database, its schema, the type and its assembly, in this order. */
  lemma {:induction false} UDTFollows(b: seq<byte>, o: nat, old72: bool, u: UDTInfo, end: nat)
    requires TypeAt(o, old72) < |b| && b[TypeAt(o, old72)] as int == UDT_NUMBER && UDTAt(b, TypeAt(o, old72) + 1, u, end)
    ensures ReadMetadata(b, o, old72) == Done(At(Front(b, o, old72).(udtInfo := Some(u)), end))
  {
    FrontIs(b, o, old72);
    LayoutByNumber(b[TypeAt(o, old72)]);
    UDTRead(b, TypeAt(o, old72) + 1, u, end);
    hide ReadMetadata, LayoutOf, Word, Long, ReadUDTInfo, UDTAt;
  }

  /**
   The bits of a type number tell what follows (section 2.2.4.3 of MS-TDS): among the
   supported types other than Xml and UDT, nothing follows if and only if the fifth and
   sixth bits say that the length is zero or fixed, or the type is Date.
   */
  lemma {:induction false} TypeBits(b: seq<byte>, o: nat, old72: bool)
    requires TypeAt(o, old72) < |b| && b[TypeAt(o, old72)] as int !in {XML, UDT_NUMBER}
    requires !ReadMetadata(b, o, old72).Failed?
    ensures
      var t := b[TypeAt(o, old72)] as int;
      ReadMetadata(b, o, old72) == Done(At(Front(b, o, old72), TypeAt(o, old72) + 1)) <==> t / 16 % 4 == 1 || t / 16 % 4 == 3 || t == 0x28
  {
    var t := b[TypeAt(o, old72)] as int;
    NothingElse(b, o, old72);
    NumberBits(t);
    hide *;
    if t in NOTHING {
      NothingFollows(b, o, old72);
    } else {
      SomethingFollows(b, o, old72);
    }
  }

  lemma {:induction false} NumberBits(t: int)
    ensures t in NOTHING ==> t / 16 % 4 == 1 || t / 16 % 4 == 3 || t == 0x28
    ensures t in BYTE_LENGTH + WORD_LENGTH + LONG_LENGTH + WORD_COLLATION + LONG_COLLATION + SCALE + PRECISION_SCALE ==>
      t / 16 % 4 == 2 && t != 0x28
  {
    NothingBits(t);
    SomethingBits(t);
    hide NOTHING, BYTE_LENGTH, WORD_LENGTH, LONG_LENGTH, WORD_COLLATION, LONG_COLLATION, SCALE, PRECISION_SCALE;
  }

  lemma {:induction false} NothingBits(t: int)
    ensures t in NOTHING ==> t / 16 % 4 == 1 || t / 16 % 4 == 3 || t == 0x28
  {
  }

  lemma {:induction false} SomethingBits(t: int)
    ensures t in BYTE_LENGTH || t in WORD_LENGTH || t in LONG_LENGTH ==> t / 16 % 4 == 2 && t != 0x28
    ensures t in WORD_COLLATION || t in LONG_COLLATION || t in SCALE || t in PRECISION_SCALE ==> t / 16 % 4 == 2 && t != 0x28
  {
  }

  lemma {:induction false} SomethingFollows(b: seq<byte>, o: nat, old72: bool)
    requires TypeAt(o, old72) < |b| && b[TypeAt(o, old72)] as int !in NOTHING
    ensures ReadMetadata(b, o, old72).Done? ==> ReadMetadata(b, o, old72).at.offset > TypeAt(o, old72) + 1
  {
    FrontIs(b, o, old72);
    LayoutByNumber(b[TypeAt(o, old72)]);
    hide ReadMetadata, LayoutOf, ReadTail, Word, Long, NOTHING;
    if ReadMetadata(b, o, old72).Done? {
      FurtherOn(b, TypeAt(o, old72) + 1, Front(b, o, old72));
    }
  }

  lemma {:induction false} FurtherOn(b: seq<byte>, o: nat, m: Metadata)
    requires o <= |b| && LayoutOf(m.typeNumber) != Layout.Nothing && ReadTail(b, o, m).Done?
    ensures ReadTail(b, o, m).at.offset > o
  {
    hide LayoutOf, ReadUcs2;
  }
}
