/**
 Column metadata, read from a buffer that may still be short of data: the readers,
 which start again from the front when it is, and the parser that retries them.
 */
module MetadataParser {
  import opened Wrappers
  import opened Bytes

  datatype At<+T> = At(value: T, offset: nat)

  datatype Result<+T> = Done(at: At<T>) | NotEnough(byteCount: nat) | Failed(typeNumber: byte) {
    predicate IsFailure() { !Done? }
    function PropagateFailure<U>(): Result<U>
      requires !Done?
    {
      match this
      case NotEnough(n) => NotEnough(n)
      case Failed(t) => Failed(t)
    }
    function Extract(): At<T>
      requires Done?
    {
      at
    }
  }

  /** What was read lies between the two offsets, and only missing data is asked for. */
  predicate Within<T>(r: Result<T>, b: seq<byte>, o: nat) {
    match r
    case Done(a) => o <= a.offset <= |b|
    case NotEnough(n) => n > |b|
    case Failed(_) => true
  }

  // Helpers.

  function Take(b: seq<byte>, o: nat, n: nat): (r: Result<seq<byte>>)
    ensures Within(r, b, o)
    ensures r.Done? ==> |r.at.value| == n && r.at.offset == o + n
  {
    if |b| < o + n then NotEnough(o + n) else Done(At(b[o..o + n], o + n))
  }

  function ReadUInt8(b: seq<byte>, o: nat): (r: Result<byte>)
    ensures Within(r, b, o)
    ensures r.Done? ==> r.at.offset == o + 1
  {
    var s :- Take(b, o, 1);
    Done(At(s.value[0], s.offset))
  }

  function TakeUInt16LE(b: seq<byte>, o: nat): (r: Result<nat>)
    ensures Within(r, b, o)
    ensures r.Done? ==> r.at.offset == o + 2 && r.at.value < 0x1_0000
  {
    var s :- Take(b, o, 2);
    Done(At(ReadUInt16LE(s.value, 0), s.offset))
  }

  function TakeUInt32LE(b: seq<byte>, o: nat): (r: Result<nat>)
    ensures Within(r, b, o)
    ensures r.Done? ==> r.at.offset == o + 4 && r.at.value < 0x1_0000_0000
  {
    var s :- Take(b, o, 4);
    Done(At(ReadUInt32LE(s.value, 0), s.offset))
  }

  function TakeText(b: seq<byte>, o: nat, count: nat): (r: Result<seq<CodeUnit>>)
    ensures Within(r, b, o)
    ensures r.Done? ==> |r.at.value| == count
  {
    var s :- Take(b, o, 2 * count);
    Done(At(ReadUcs2(s.value, 0, count), s.offset))
  }

  function ReadBVarChar(b: seq<byte>, o: nat): (r: Result<seq<CodeUnit>>)
    ensures Within(r, b, o)
    ensures r.Done? ==> |r.at.value| < 256 && r.at.offset == o + 1 + 2 * |r.at.value|
  {
    var charCount :- ReadUInt8(b, o);
    TakeText(b, charCount.offset, charCount.value)
  }

  function ReadUsVarChar(b: seq<byte>, o: nat): (r: Result<seq<CodeUnit>>)
    ensures Within(r, b, o)
    ensures r.Done? ==> |r.at.value| < 0x1_0000 && r.at.offset == o + 2 + 2 * |r.at.value|
  {
    var charCount :- TakeUInt16LE(b, o);
    TakeText(b, charCount.offset, charCount.value)
  }

  // Collations, schemas and user-defined types.

  datatype Collation = Collation(lcid: nat, flags: nat, version: nat, sortId: nat)

  function FromBuffer(b: seq<byte>): Collation
    requires |b| == 5
  {
    var lcid := b[2] as int % 16 * 0x1_0000 + b[1] as int * 256 + b[0] as int;
    Collation(lcid, b[3] as int % 16 * 16 + b[2] as int / 16, b[3] as int / 16, b[4])
  }

  function ReadCollation(b: seq<byte>, o: nat): (r: Result<Collation>)
    ensures Within(r, b, o)
    ensures r.Done? ==> r.at.offset == o + 5
  {
    var s :- Take(b, o, 5);
    Done(At(FromBuffer(s.value), s.offset))
  }

  datatype Schema = Schema(dbname: seq<CodeUnit>, owningSchema: seq<CodeUnit>, xmlSchemaCollection: seq<CodeUnit>)

  function ReadSchema(b: seq<byte>, o: nat): (r: Result<Option<Schema>>)
    ensures Within(r, b, o)
  {
    var present :- ReadUInt8(b, o);
    if present.value != 1 then Done(At(None, present.offset))
    else
      var schema :- ReadNames(b, present.offset);
      Done(At(Some(schema.value), schema.offset))
  }

  function ReadNames(b: seq<byte>, o: nat): (r: Result<Schema>)
    ensures Within(r, b, o)
  {
    var dbname :- ReadBVarChar(b, o);
    var owningSchema :- ReadBVarChar(b, dbname.offset);
    var collection :- ReadUsVarChar(b, owningSchema.offset);
    Done(At(Schema(dbname.value, owningSchema.value, collection.value), collection.offset))
  }

  datatype UDTInfo = UDTInfo(
    maxByteSize: nat, dbname: seq<CodeUnit>, owningSchema: seq<CodeUnit>, typeName: seq<CodeUnit>, assemblyName: seq<CodeUnit>)

  function ReadTypeNames(b: seq<byte>, o: nat): (r: Result<(seq<CodeUnit>, seq<CodeUnit>, seq<CodeUnit>)>)
    ensures Within(r, b, o)
    ensures r.Done? ==> r.at.offset == o + 3 + 2 * (|r.at.value.0| + |r.at.value.1| + |r.at.value.2|)
  {
    var dbname :- ReadBVarChar(b, o);
    var owningSchema :- ReadBVarChar(b, dbname.offset);
    var typeName :- ReadBVarChar(b, owningSchema.offset);
    Done(At((dbname.value, owningSchema.value, typeName.value), typeName.offset))
  }

  function ReadUDTInfo(b: seq<byte>, o: nat): (r: Result<UDTInfo>)
    ensures Within(r, b, o)
  {
    var maxByteSize :- TakeUInt16LE(b, o);
    var names :- ReadTypeNames(b, maxByteSize.offset);
    var assemblyName :- ReadUsVarChar(b, names.offset);
    var (dbname, owningSchema, typeName) := names.value;
    Done(At(UDTInfo(maxByteSize.value, dbname, owningSchema, typeName, assemblyName.value), assemblyName.offset))
  }

  // Metadata.

  /** What follows the type number; a type can be unknown, or known but not supported here. */
  datatype Layout =
    | Nothing | Length8 | Length16 | Length32 | Length16Collation | Length32Collation | XmlSchema | Scale | PrecisionScale | UDT
    | Unsupported | Unknown

  datatype Type =
    | Null | TinyInt | Bit | SmallInt | Int | SmallDateTime | Real | Money | DateTime | Float | Decimal | Numeric | SmallMoney | BigInt
    | Image | Text | UniqueIdentifier | IntN | NText | BitN | DecimalN | NumericN | FloatN | MoneyN | DateTimeN
    | VarBinary | VarChar | Binary | Char | NVarChar | NChar | Xml | Time | Date | DateTime2 | DateTimeOffset | UserDefined | TVP | Variant

  /** The table of types, by their numbers. */
  function TypeOf(typeNumber: byte): Option<Type> {
    match typeNumber
    case 0x1F => Some(Null)
    case 0x30 => Some(TinyInt)
    case 0x32 => Some(Bit)
    case 0x34 => Some(SmallInt)
    case 0x38 => Some(Int)
    case 0x3A => Some(SmallDateTime)
    case 0x3B => Some(Real)
    case 0x3C => Some(Money)
    case 0x3D => Some(DateTime)
    case 0x3E => Some(Float)
    case 0x37 => Some(Decimal)
    case 0x3F => Some(Numeric)
    case 0x7A => Some(SmallMoney)
    case 0x7F => Some(BigInt)
    case 0x22 => Some(Image)
    case 0x23 => Some(Text)
    case 0x24 => Some(UniqueIdentifier)
    case 0x26 => Some(IntN)
    case 0x63 => Some(NText)
    case 0x68 => Some(BitN)
    case 0x6A => Some(DecimalN)
    case 0x6C => Some(NumericN)
    case 0x6D => Some(FloatN)
    case 0x6E => Some(MoneyN)
    case 0x6F => Some(DateTimeN)
    case 0xA5 => Some(VarBinary)
    case 0xA7 => Some(VarChar)
    case 0xAD => Some(Binary)
    case 0xAF => Some(Char)
    case 0xE7 => Some(NVarChar)
    case 0xEF => Some(NChar)
    case 0xF1 => Some(Xml)
    case 0x29 => Some(Time)
    case 0x28 => Some(Date)
    case 0x2A => Some(DateTime2)
    case 0x2B => Some(DateTimeOffset)
    case 0xF0 => Some(UserDefined)
    case 0xF3 => Some(TVP)
    case 0x62 => Some(Variant)
    case _ => None
  }

  /** The switch on the type's name. */
  function Switch(t: Type): Layout {
    match t
    case Null | TinyInt | SmallInt | Int | BigInt | Real | Float | SmallMoney | Money | Bit | SmallDateTime | DateTime | Date => Nothing
    case IntN | FloatN | MoneyN | BitN | UniqueIdentifier | DateTimeN => Length8
    case Variant => Length32
    case VarChar | Char | NVarChar | NChar => Length16Collation
    case Text | NText => Length32Collation
    case VarBinary | Binary => Length16
    case Image => Length32
    case Xml => XmlSchema
    case Time | DateTime2 | DateTimeOffset => Scale
    case NumericN | DecimalN => PrecisionScale
    case UserDefined => UDT
    case Decimal | Numeric | TVP => Unsupported
  }

  function LayoutOf(typeNumber: byte): Layout {
    match TypeOf(typeNumber)
    case Some(t) => Switch(t)
    case None => Unknown
  }

  datatype Metadata = Metadata(
    userType: nat, flags: nat, typeNumber: byte, collation: Option<Collation>, precision: Option<byte>, scale: Option<byte>,
    dataLength: Option<nat>, schema: Option<Schema>, udtInfo: Option<UDTInfo>)

  function Base(userType: nat, flags: nat, typeNumber: byte): Metadata {
    Metadata(userType, flags, typeNumber, None, None, None, None, None, None)
  }

  /** The part that every type has. */
  function BaseOf(m: Metadata): Metadata {
    Base(m.userType, m.flags, m.typeNumber)
  }

  /** The user type has two bytes before version 7.2, and four since. */
  function ReadUserType(b: seq<byte>, o: nat, old72: bool): (r: Result<nat>)
    ensures Within(r, b, o)
  {
    if old72 then TakeUInt16LE(b, o) else TakeUInt32LE(b, o)
  }

  function ReadTail(b: seq<byte>, o: nat, m: Metadata): (r: Result<Metadata>)
    requires o <= |b|
    ensures Within(r, b, o)
    ensures r.Done? ==> BaseOf(r.at.value) == BaseOf(m)
  {
    match LayoutOf(m.typeNumber)
    case Nothing => Done(At(m, o))
    case Length8 =>
      var length :- ReadUInt8(b, o);
      Done(At(m.(dataLength := Some(length.value)), length.offset))
    case Length16 =>
      var length :- TakeUInt16LE(b, o);
      Done(At(m.(dataLength := Some(length.value)), length.offset))
    case Length32 =>
      var length :- TakeUInt32LE(b, o);
      Done(At(m.(dataLength := Some(length.value)), length.offset))
    case Length16Collation =>
      var length :- TakeUInt16LE(b, o);
      var collation :- ReadCollation(b, length.offset);
      Done(At(m.(dataLength := Some(length.value), collation := Some(collation.value)), collation.offset))
    case Length32Collation =>
      var length :- TakeUInt32LE(b, o);
      var collation :- ReadCollation(b, length.offset);
      Done(At(m.(dataLength := Some(length.value), collation := Some(collation.value)), collation.offset))
    case XmlSchema =>
      var schema :- ReadSchema(b, o);
      Done(At(m.(schema := schema.value), schema.offset))
    case Scale =>
      var scale :- ReadUInt8(b, o);
      Done(At(m.(scale := Some(scale.value)), scale.offset))
    case PrecisionScale =>
      var length :- ReadUInt8(b, o);
      var precision :- ReadUInt8(b, length.offset);
      var scale :- ReadUInt8(b, precision.offset);
      Done(At(m.(dataLength := Some(length.value), precision := Some(precision.value), scale := Some(scale.value)), scale.offset))
    case UDT =>
      var udtInfo :- ReadUDTInfo(b, o);
      Done(At(m.(udtInfo := Some(udtInfo.value)), udtInfo.offset))
    case _ => Failed(m.typeNumber)
  }

  function ReadMetadata(b: seq<byte>, o: nat, old72: bool): (r: Result<Metadata>)
    ensures Within(r, b, o)
  {
    var userType :- ReadUserType(b, o, old72);
    var flags :- TakeUInt16LE(b, userType.offset);
    var typeNumber :- ReadUInt8(b, flags.offset);
    ReadTail(b, typeNumber.offset, Base(userType.value, flags.value, typeNumber.value))
  }

  // Where the data stands, and what comes behind it, makes no difference.

  /** From `p` on, `c` goes on like `b` does from `o` on, and perhaps further. */
  predicate Sees(b: seq<byte>, o: nat, c: seq<byte>, p: nat) {
    o <= |b| && p + (|b| - o) <= |c| && b[o..] == c[p..p + (|b| - o)]
  }

  /** What is settled stays the same, and what comes behind it is seen in the same way. */
  predicate Same<T(==)>(r: Result<T>, b: seq<byte>, o: nat, s: Result<T>, c: seq<byte>, p: nat) {
    match r
    case Done(a) =>
      && a.offset >= o && s == Done(At(a.value, a.offset - o + p))
      && Sees(b, a.offset, c, a.offset - o + p)
    case NotEnough(_) => true
    case Failed(t) => s == Failed(t)
  }

  lemma TakeLocal(b: seq<byte>, o: nat, c: seq<byte>, p: nat, n: nat)
    requires Sees(b, o, c, p)
    ensures Same(Take(b, o, n), b, o, Take(c, p, n), c, p)
  {
    if o + n <= |b| {
      var len := |b| - o;
      assert b[o..o + n] == b[o..][..n] == c[p..p + len][..n] == c[p..p + n];
      assert b[o + n..] == b[o..][n..] == c[p..p + len][n..] == c[p + n..p + len];
    }
  }

  lemma NumbersLocal(b: seq<byte>, o: nat, c: seq<byte>, p: nat)
    requires Sees(b, o, c, p)
    ensures Same(ReadUInt8(b, o), b, o, ReadUInt8(c, p), c, p)
    ensures Same(TakeUInt16LE(b, o), b, o, TakeUInt16LE(c, p), c, p)
    ensures Same(TakeUInt32LE(b, o), b, o, TakeUInt32LE(c, p), c, p)
    ensures Same(ReadCollation(b, o), b, o, ReadCollation(c, p), c, p)
  {
    hide Sees, Take, ReadUInt16LE, ReadUInt32LE, FromBuffer;
    TakeLocal(b, o, c, p, 1);
    TakeLocal(b, o, c, p, 2);
    TakeLocal(b, o, c, p, 4);
    TakeLocal(b, o, c, p, 5);
  }

  lemma TextLocal(b: seq<byte>, o: nat, c: seq<byte>, p: nat)
    requires Sees(b, o, c, p)
    ensures Same(ReadBVarChar(b, o), b, o, ReadBVarChar(c, p), c, p)
    ensures Same(ReadUsVarChar(b, o), b, o, ReadUsVarChar(c, p), c, p)
  {
    hide Sees, Take, ReadUcs2, ReadUInt8, TakeUInt16LE;
    NumbersLocal(b, o, c, p);
    var short, long := ReadUInt8(b, o), TakeUInt16LE(b, o);
    if short.Done? {
      TakeLocal(b, short.at.offset, c, short.at.offset - o + p, 2 * short.at.value as int);
    }
    if long.Done? {
      TakeLocal(b, long.at.offset, c, long.at.offset - o + p, 2 * long.at.value);
    }
  }

  lemma SchemaLocal(b: seq<byte>, o: nat, c: seq<byte>, p: nat)
    requires Sees(b, o, c, p)
    ensures Same(ReadSchema(b, o), b, o, ReadSchema(c, p), c, p)
  {
    hide Sees, ReadUInt8, ReadBVarChar, ReadUsVarChar;
    NumbersLocal(b, o, c, p);
    var present := ReadUInt8(b, o);
    if present.Done? && present.at.value == 1 {
      TextsLocal(b, present.at.offset, c, present.at.offset - o + p);
    }
  }

  /** Three texts in a row, the last of them with either kind of length. */
  lemma TextsLocal(b: seq<byte>, o: nat, c: seq<byte>, p: nat)
    requires Sees(b, o, c, p)
    ensures Same(ReadBVarChar(b, o), b, o, ReadBVarChar(c, p), c, p)
    ensures
      ReadBVarChar(b, o).Done? ==>
        var o1 := ReadBVarChar(b, o).at.offset;
        var p1 := o1 - o + p;
        && o1 >= o && Same(ReadBVarChar(b, o1), b, o1, ReadBVarChar(c, p1), c, p1)
        && (ReadBVarChar(b, o1).Done? ==>
          var o2 := ReadBVarChar(b, o1).at.offset;
          var p2 := o2 - o1 + p1;
          && o2 >= o1 && Same(ReadUsVarChar(b, o2), b, o2, ReadUsVarChar(c, p2), c, p2)
          && Same(ReadBVarChar(b, o2), b, o2, ReadBVarChar(c, p2), c, p2))
  {
    hide Sees, ReadBVarChar, ReadUsVarChar;
    TextLocal(b, o, c, p);
    var r := ReadBVarChar(b, o);
    if r.Done? {
      var o1, p1 := r.at.offset, r.at.offset - o + p;
      TextLocal(b, o1, c, p1);
      var r1 := ReadBVarChar(b, o1);
      if r1.Done? {
        TextLocal(b, r1.at.offset, c, r1.at.offset - o1 + p1);
      }
    }
  }

  lemma {:induction false} TypeNamesLocal(b: seq<byte>, o: nat, c: seq<byte>, p: nat)
    requires Sees(b, o, c, p)
    ensures Same(ReadTypeNames(b, o), b, o, ReadTypeNames(c, p), c, p)
  {
    hide Sees, ReadBVarChar, ReadUsVarChar;
    TextsLocal(b, o, c, p);
  }

  lemma {:induction false} UDTInfoLocal(b: seq<byte>, o: nat, c: seq<byte>, p: nat)
    requires Sees(b, o, c, p)
    ensures Same(ReadUDTInfo(b, o), b, o, ReadUDTInfo(c, p), c, p)
  {
    hide Sees, TakeUInt16LE, ReadTypeNames, ReadUsVarChar;
    NumbersLocal(b, o, c, p);
    var size := TakeUInt16LE(b, o);
    if size.Done? {
      var o1, p1 := size.at.offset, size.at.offset - o + p;
      TypeNamesLocal(b, o1, c, p1);
      var names := ReadTypeNames(b, o1);
      if names.Done? {
        TextLocal(b, names.at.offset, c, names.at.offset - o1 + p1);
      }
    }
  }

  lemma {:induction false} TailLocal(b: seq<byte>, o: nat, c: seq<byte>, p: nat, m: Metadata)
    requires Sees(b, o, c, p) && o <= |b| && p <= |c|
    ensures Same(ReadTail(b, o, m), b, o, ReadTail(c, p, m), c, p)
  {
    hide Sees, LayoutOf, ReadUInt8, TakeUInt16LE, TakeUInt32LE, ReadCollation, ReadSchema, ReadUDTInfo;
    NumbersLocal(b, o, c, p);
    match LayoutOf(m.typeNumber)
    case Length16Collation =>
      var length := TakeUInt16LE(b, o);
      if length.Done? {
        NumbersLocal(b, length.at.offset, c, length.at.offset - o + p);
      }
    case Length32Collation =>
      var length := TakeUInt32LE(b, o);
      if length.Done? {
        NumbersLocal(b, length.at.offset, c, length.at.offset - o + p);
      }
    case XmlSchema => SchemaLocal(b, o, c, p);
    case PrecisionScale =>
      var length := ReadUInt8(b, o);
      if length.Done? {
        NumbersLocal(b, length.at.offset, c, length.at.offset - o + p);
        var precision := ReadUInt8(b, length.at.offset);
        if precision.Done? {
          NumbersLocal(b, precision.at.offset, c, precision.at.offset - o + p);
        }
      }
    case UDT => UDTInfoLocal(b, o, c, p);
    case _ =>
  }

  lemma MetadataLocal(b: seq<byte>, o: nat, c: seq<byte>, p: nat, old72: bool)
    requires Sees(b, o, c, p)
    ensures Same(ReadMetadata(b, o, old72), b, o, ReadMetadata(c, p, old72), c, p)
  {
    hide Sees, ReadTail, ReadUInt8, TakeUInt16LE, TakeUInt32LE;
    NumbersLocal(b, o, c, p);
    var userType := ReadUserType(b, o, old72);
    if userType.Done? {
      var o1, p1 := userType.at.offset, userType.at.offset - o + p;
      NumbersLocal(b, o1, c, p1);
      var flags := TakeUInt16LE(b, o1);
      if flags.Done? {
        var o2, p2 := flags.at.offset, flags.at.offset - o1 + p1;
        NumbersLocal(b, o2, c, p2);
        var typeNumber := ReadUInt8(b, o2);
        if typeNumber.Done? {
          TailLocal(b, typeNumber.at.offset, c, typeNumber.at.offset - o2 + p2,
                    Base(userType.at.value, flags.at.value, typeNumber.at.value));
        }
      }
    }
  }

  // What the readers accept.

  predicate Holds(b: seq<byte>, o: nat, s: seq<byte>) {
    o + |s| <= |b| && b[o..o + |s|] == s
  }

  lemma HoldsBoth(b: seq<byte>, o: nat, s: seq<byte>, t: seq<byte>)
    ensures Holds(b, o, s + t) <==> Holds(b, o, s) && Holds(b, o + |s|, t)
  {
    if o + |s| + |t| <= |b| {
      var u := b[o..o + |s| + |t|];
      assert u[..|s|] == b[o..o + |s|] && u[|s|..] == b[o + |s|..o + |s| + |t|];
      assert u == u[..|s|] + u[|s|..] && (s + t)[..|s|] == s && (s + t)[|s|..] == t;
    }
  }

  lemma NumberExact(b: seq<byte>, o: nat, n: nat, e: nat)
    ensures n < 256 ==> (ReadUInt8(b, o) == Done(At(n, e)) <==> e == o + 1 && Holds(b, o, [n]))
    ensures TakeUInt16LE(b, o) == Done(At(n, e)) <==> n < 0x1_0000 && e == o + 2 && Holds(b, o, UInt16LE(n))
  {
    if o + 2 <= |b| {
      var s := b[o..o + 2];
      assert UInt16LE(ReadUInt16LE(s, 0)) == s;
    }
  }

  lemma Number32Exact(b: seq<byte>, o: nat, n: nat, e: nat)
    ensures TakeUInt32LE(b, o) == Done(At(n, e)) <==> n < 0x1_0000_0000 && e == o + 4 && Holds(b, o, UInt32LE(n))
  {
    hide UInt32LE, ReadUInt32LE;
    if o + 4 <= |b| {
      LittleEndian(b[o..o + 4]);
    }
  }

  lemma LittleEndian(s: seq<byte>)
    requires |s| == 4
    ensures UInt32LE(ReadUInt32LE(s, 0)) == s
  {
    var low, high := ReadUInt16LE(s, 0), ReadUInt16LE(s, 2);
    assert ReadUInt32LE(s, 0) % 0x1_0000 == low && ReadUInt32LE(s, 0) / 0x1_0000 == high;
    assert UInt16LE(low) == s[..2] && UInt16LE(high) == s[2..];
  }

  function BVarChar(t: seq<CodeUnit>): (s: seq<byte>)
    requires |t| < 256
    ensures |s| == 1 + 2 * |t|
  {
    [|t|] + Ucs2(t)
  }

  function UsVarChar(t: seq<CodeUnit>): (s: seq<byte>)
    requires |t| < 0x1_0000
    ensures |s| == 2 + 2 * |t|
  {
    UInt16LE(|t|) + Ucs2(t)
  }

  lemma {:induction false} TextExact(b: seq<byte>, o: nat, t: seq<CodeUnit>, e: nat)
    ensures TakeText(b, o, |t|) == Done(At(t, e)) <==> e == o + 2 * |t| && Holds(b, o, Ucs2(t))
  {
    hide Ucs2, ReadUcs2;
    if o + 2 * |t| <= |b| {
      Ucs2Inverse(b[o..o + 2 * |t|], t);
    }
  }

  lemma Ucs2Inverse(s: seq<byte>, t: seq<CodeUnit>)
    requires |s| == 2 * |t|
    ensures ReadUcs2(s, 0, |t|) == t <==> s == Ucs2(t)
  {
    hide Ucs2, ReadUcs2;
    Ucs2Exact(s, 0, |t|);
    assert s[0..2 * |t|] == s;
    Ucs2RoundTrip(t);
  }

  lemma CharsExact(b: seq<byte>, o: nat, t: seq<CodeUnit>, e: nat)
    ensures ReadBVarChar(b, o) == Done(At(t, e)) <==> |t| < 256 && e == o + 1 + 2 * |t| && Holds(b, o, BVarChar(t))
    ensures ReadUsVarChar(b, o) == Done(At(t, e)) <==> |t| < 0x1_0000 && e == o + 2 + 2 * |t| && Holds(b, o, UsVarChar(t))
  {
    hide Holds, Ucs2, UInt16LE, TakeText, TakeUInt16LE, ReadUInt8;
    NumberExact(b, o, |t|, o + 1);
    NumberExact(b, o, |t|, o + 2);
    TextExact(b, o + 1, t, e);
    TextExact(b, o + 2, t, e);
    HoldsBoth(b, o, [if |t| < 256 then |t| else 0], Ucs2(t));
    if |t| < 0x1_0000 {
      HoldsBoth(b, o, UInt16LE(|t|), Ucs2(t));
    }
  }

  predicate CollationOk(c: Collation) {
    c.lcid < 0x10_0000 && c.flags < 256 && c.version < 16 && c.sortId < 256
  }

  function ToBuffer(c: Collation): (s: seq<byte>)
    requires CollationOk(c)
    ensures |s| == 5
  {
    [c.lcid % 256, c.lcid / 256 % 256, c.lcid / 0x1_0000 + c.flags % 16 * 16, c.flags / 16 + c.version * 16, c.sortId]
  }

  lemma CollationExact(b: seq<byte>, o: nat, c: Collation, e: nat)
    ensures ReadCollation(b, o) == Done(At(c, e)) <==> CollationOk(c) && e == o + 5 && Holds(b, o, ToBuffer(c))
  {
    if o + 5 <= |b| {
      FromToBuffer(b[o..o + 5]);
      if CollationOk(c) {
        ToFromBuffer(c);
      }
    }
    hide FromBuffer, ToBuffer;
  }

  lemma FromToBuffer(s: seq<byte>)
    requires |s| == 5
    ensures CollationOk(FromBuffer(s)) && ToBuffer(FromBuffer(s)) == s
  {
    var lcid := FromBuffer(s).lcid;
    assert lcid / 256 == s[2] as int % 16 * 256 + s[1] as int;
    assert lcid / 0x1_0000 == s[2] as int % 16;
  }

  lemma ToFromBuffer(c: Collation)
    requires CollationOk(c)
    ensures FromBuffer(ToBuffer(c)) == c
  {
    var s := ToBuffer(c);
    Nibbles(c.lcid / 0x1_0000, c.flags % 16);
    Nibbles(c.flags / 16, c.version);
    assert c.lcid == c.lcid / 0x1_0000 * 0x1_0000 + c.lcid / 256 % 256 * 256 + c.lcid % 256;
  }

  lemma Nibbles(low: nat, high: nat)
    requires low < 16
    ensures (low + high * 16) % 16 == low && (low + high * 16) / 16 == high
  {
  }

  predicate NamesOk(s: Schema) {
    |s.dbname| < 256 && |s.owningSchema| < 256 && |s.xmlSchemaCollection| < 0x1_0000
  }

  function EncodeNames(s: Schema): seq<byte>
    requires NamesOk(s)
  {
    BVarChar(s.dbname) + BVarChar(s.owningSchema) + UsVarChar(s.xmlSchemaCollection)
  }

  lemma NamesExact(b: seq<byte>, o: nat, s: Schema, e: nat)
    ensures ReadNames(b, o) == Done(At(s, e)) <==> NamesOk(s) && e == o + |EncodeNames(s)| && Holds(b, o, EncodeNames(s))
  {
    hide Holds, ReadBVarChar, ReadUsVarChar, BVarChar, UsVarChar;
    var o1 := o + 1 + 2 * |s.dbname|;
    var o2 := o1 + 1 + 2 * |s.owningSchema|;
    CharsExact(b, o, s.dbname, o1);
    CharsExact(b, o1, s.owningSchema, o2);
    CharsExact(b, o2, s.xmlSchemaCollection, e);
    if NamesOk(s) {
      HoldsBoth(b, o, BVarChar(s.dbname), BVarChar(s.owningSchema));
      HoldsBoth(b, o, BVarChar(s.dbname) + BVarChar(s.owningSchema), UsVarChar(s.xmlSchemaCollection));
    }
  }

  /** A schema that is absent is announced by any byte but one. */
  predicate SchemaOk(schema: Option<Schema>, marker: byte) {
    match schema
    case None => marker != 1
    case Some(s) => marker == 1 && NamesOk(s)
  }

  function EncodeSchema(schema: Option<Schema>, marker: byte): seq<byte>
    requires SchemaOk(schema, marker)
  {
    [marker] + if schema.Some? then EncodeNames(schema.value) else []
  }

  lemma {:induction false} PresentExact(b: seq<byte>, o: nat, s: Schema, e: nat)
    requires o < |b| && b[o] == 1
    ensures ReadSchema(b, o) == Done(At(Some(s), e)) <==> ReadNames(b, o + 1) == Done(At(s, e))
  {
    assert ReadUInt8(b, o) == Done(At(1, o + 1));
    hide ReadNames, ReadUInt8;
  }

  lemma {:induction false} AbsentExact(b: seq<byte>, o: nat, schema: Option<Schema>, e: nat)
    requires o < |b| && (b[o] != 1 || schema == None)
    ensures ReadSchema(b, o) == Done(At(schema, e)) <==> b[o] != 1 && schema == None && e == o + 1
  {
    assert ReadUInt8(b, o) == Done(At(b[o], o + 1));
    hide ReadNames, ReadUInt8;
  }

  lemma {:induction false} EncodedPresent(b: seq<byte>, o: nat, s: Schema)
    requires o < |b| && b[o] == 1 && NamesOk(s)
    ensures |EncodeSchema(Some(s), 1)| == 1 + |EncodeNames(s)|
    ensures Holds(b, o, EncodeSchema(Some(s), 1)) <==> Holds(b, o + 1, EncodeNames(s))
  {
    assert Holds(b, o, [1]);
    hide Holds, EncodeNames;
    HoldsBoth(b, o, [1], EncodeNames(s));
  }

  lemma {:induction false} EncodedAbsent(b: seq<byte>, o: nat)
    requires o < |b| && b[o] != 1
    ensures |EncodeSchema(None, b[o])| == 1 && Holds(b, o, EncodeSchema(None, b[o]))
  {
    assert [b[o]] + [] == [b[o]];
  }

  lemma {:induction false} SchemaExact(b: seq<byte>, o: nat, schema: Option<Schema>, e: nat)
    requires o < |b|
    ensures ReadSchema(b, o) == Done(At(schema, e)) <==>
      && SchemaOk(schema, b[o]) && e == o + |EncodeSchema(schema, b[o])| && Holds(b, o, EncodeSchema(schema, b[o]))
  {
    hide Holds, ReadSchema, ReadNames, EncodeSchema, EncodeNames, NamesOk;
    if schema.Some? && b[o] == 1 {
      PresentExact(b, o, schema.value, e);
      NamesExact(b, o + 1, schema.value, e);
      if NamesOk(schema.value) {
        EncodedPresent(b, o, schema.value);
      }
    } else {
      AbsentExact(b, o, schema, e);
      if schema == None && b[o] != 1 {
        EncodedAbsent(b, o);
      }
    }
  }

  predicate UDTInfoOk(u: UDTInfo) {
    && u.maxByteSize < 0x1_0000 && |u.dbname| < 256 && |u.owningSchema| < 256 && |u.typeName| < 256
    && |u.assemblyName| < 0x1_0000
  }

  function EncodeUDTInfo(u: UDTInfo): seq<byte>
    requires UDTInfoOk(u)
  {
    UInt16LE(u.maxByteSize) + BVarChar(u.dbname) + BVarChar(u.owningSchema) + BVarChar(u.typeName) + UsVarChar(u.assemblyName)
  }

  lemma {:induction false} TypeNamesExact(b: seq<byte>, o: nat, x: seq<CodeUnit>, y: seq<CodeUnit>, z: seq<CodeUnit>, e: nat)
    ensures ReadTypeNames(b, o) == Done(At((x, y, z), e)) <==>
      && |x| < 256 && |y| < 256 && |z| < 256 && e == o + 3 + 2 * (|x| + |y| + |z|)
      && Holds(b, o, BVarChar(x)) && Holds(b, o + 1 + 2 * |x|, BVarChar(y)) && Holds(b, o + 2 + 2 * (|x| + |y|), BVarChar(z))
  {
    hide Holds, ReadBVarChar, BVarChar;
    CharsExact(b, o, x, o + 1 + 2 * |x|);
    CharsExact(b, o + 1 + 2 * |x|, y, o + 2 + 2 * (|x| + |y|));
    CharsExact(b, o + 2 + 2 * (|x| + |y|), z, e);
  }

  lemma {:induction false} UDTInfoExact(b: seq<byte>, o: nat, u: UDTInfo, e: nat)
    ensures ReadUDTInfo(b, o) == Done(At(u, e)) <==>
      UDTInfoOk(u) && e == o + |EncodeUDTInfo(u)| && Holds(b, o, EncodeUDTInfo(u))
  {
    hide Holds, TakeUInt16LE, ReadTypeNames, ReadUsVarChar, BVarChar, UsVarChar, UInt16LE;
    var o4 := o + 5 + 2 * (|u.dbname| + |u.owningSchema| + |u.typeName|);
    NumberExact(b, o, u.maxByteSize, o + 2);
    TypeNamesExact(b, o + 2, u.dbname, u.owningSchema, u.typeName, o4);
    CharsExact(b, o4, u.assemblyName, e);
    if UDTInfoOk(u) {
      var s1, s2, s3, s4 := UInt16LE(u.maxByteSize), BVarChar(u.dbname), BVarChar(u.owningSchema), BVarChar(u.typeName);
      HoldsBoth(b, o, s1, s2);
      HoldsBoth(b, o, s1 + s2, s3);
      HoldsBoth(b, o, s1 + s2 + s3, s4);
      HoldsBoth(b, o, s1 + s2 + s3 + s4, UsVarChar(u.assemblyName));
    }
  }

  /** Just what the layout of the type asks for is there, in range. */
  predicate TailOk(m: Metadata, marker: byte) {
    match LayoutOf(m.typeNumber)
    case Nothing => m == BaseOf(m)
    case Length8 => m.dataLength.Some? && m.dataLength.value < 256 && m == BaseOf(m).(dataLength := m.dataLength)
    case Length16 => m.dataLength.Some? && m.dataLength.value < 0x1_0000 && m == BaseOf(m).(dataLength := m.dataLength)
    case Length32 => m.dataLength.Some? && m.dataLength.value < 0x1_0000_0000 && m == BaseOf(m).(dataLength := m.dataLength)
    case Length16Collation =>
      && m.dataLength.Some? && m.dataLength.value < 0x1_0000 && m.collation.Some? && CollationOk(m.collation.value)
      && m == BaseOf(m).(dataLength := m.dataLength, collation := m.collation)
    case Length32Collation =>
      && m.dataLength.Some? && m.dataLength.value < 0x1_0000_0000 && m.collation.Some? && CollationOk(m.collation.value)
      && m == BaseOf(m).(dataLength := m.dataLength, collation := m.collation)
    case XmlSchema => SchemaOk(m.schema, marker) && m == BaseOf(m).(schema := m.schema)
    case Scale => m.scale.Some? && m == BaseOf(m).(scale := m.scale)
    case PrecisionScale =>
      && m.dataLength.Some? && m.dataLength.value < 256 && m.precision.Some? && m.scale.Some?
      && m == BaseOf(m).(dataLength := m.dataLength, precision := m.precision, scale := m.scale)
    case UDT => m.udtInfo.Some? && UDTInfoOk(m.udtInfo.value) && m == BaseOf(m).(udtInfo := m.udtInfo)
    case _ => false
  }

  function EncodeTail(m: Metadata, marker: byte): seq<byte>
    requires TailOk(m, marker)
  {
    match LayoutOf(m.typeNumber)
    case Nothing => []
    case Length8 => [m.dataLength.value]
    case Length16 => UInt16LE(m.dataLength.value)
    case Length32 => UInt32LE(m.dataLength.value)
    case Length16Collation => UInt16LE(m.dataLength.value) + ToBuffer(m.collation.value)
    case Length32Collation => UInt32LE(m.dataLength.value) + ToBuffer(m.collation.value)
    case XmlSchema => EncodeSchema(m.schema, marker)
    case Scale => [m.scale.value]
    case PrecisionScale => [m.dataLength.value] + [m.precision.value] + [m.scale.value]
    case UDT => EncodeUDTInfo(m.udtInfo.value)
  }

  lemma TailExact(b: seq<byte>, o: nat, m: Metadata, e: nat, marker: byte)
    requires o <= |b| && (o < |b| ==> marker == b[o])
    ensures ReadTail(b, o, BaseOf(m)) == Done(At(m, e)) <==>
      TailOk(m, marker) && e == o + |EncodeTail(m, marker)| && Holds(b, o, EncodeTail(m, marker))
  {
    hide Holds, ReadTail, TailOk, EncodeTail, LayoutOf;
    match LayoutOf(m.typeNumber)
    case Length16Collation => CollatedExact(b, o, m, e, marker);
    case Length32Collation => CollatedExact(b, o, m, e, marker);
    case PrecisionScale => PrecisionExact(b, o, m, e, marker);
    case XmlSchema => NamedExact(b, o, m, e, marker);
    case UDT => NamedExact(b, o, m, e, marker);
    case _ => PlainExact(b, o, m, e, marker);
  }

  lemma PlainExact(b: seq<byte>, o: nat, m: Metadata, e: nat, marker: byte)
    requires o <= |b| && (o < |b| ==> marker == b[o])
    requires LayoutOf(m.typeNumber) !in {Length16Collation, Length32Collation, PrecisionScale, XmlSchema, UDT}
    ensures ReadTail(b, o, BaseOf(m)) == Done(At(m, e)) <==>
      TailOk(m, marker) && e == o + |EncodeTail(m, marker)| && Holds(b, o, EncodeTail(m, marker))
  {
    assert Holds(b, o, []);
    hide Holds, ReadUInt8, TakeUInt16LE, TakeUInt32LE, UInt16LE, UInt32LE, LayoutOf;
    var n := if m.dataLength.Some? then m.dataLength.value else 0;
    match LayoutOf(m.typeNumber)
    case Length8 => NumberExact(b, o, n, e);
    case Length16 => NumberExact(b, o, n, e);
    case Length32 => Number32Exact(b, o, n, e);
    case Scale =>
      if m.scale.Some? {
        NumberExact(b, o, m.scale.value, e);
      }
    case _ =>
  }

  lemma NamedExact(b: seq<byte>, o: nat, m: Metadata, e: nat, marker: byte)
    requires o <= |b| && (o < |b| ==> marker == b[o])
    requires LayoutOf(m.typeNumber) in {XmlSchema, UDT}
    ensures ReadTail(b, o, BaseOf(m)) == Done(At(m, e)) <==>
      TailOk(m, marker) && e == o + |EncodeTail(m, marker)| && Holds(b, o, EncodeTail(m, marker))
  {
    hide Holds, ReadSchema, ReadUDTInfo, EncodeSchema, EncodeUDTInfo, SchemaOk, UDTInfoOk, LayoutOf;
    if LayoutOf(m.typeNumber) == XmlSchema {
      XmlExact(b, o, m.schema, e, marker);
    } else if m.udtInfo.Some? {
      UDTInfoExact(b, o, m.udtInfo.value, e);
    }
  }

  lemma XmlExact(b: seq<byte>, o: nat, schema: Option<Schema>, e: nat, marker: byte)
    requires o <= |b| && (o < |b| ==> marker == b[o])
    ensures ReadSchema(b, o) == Done(At(schema, e)) <==>
      SchemaOk(schema, marker) && e == o + |EncodeSchema(schema, marker)| && Holds(b, o, EncodeSchema(schema, marker))
  {
    if o < |b| {
      SchemaExact(b, o, schema, e);
    }
  }

  lemma CollatedExact(b: seq<byte>, o: nat, m: Metadata, e: nat, marker: byte)
    requires o <= |b| && LayoutOf(m.typeNumber) in {Length16Collation, Length32Collation}
    ensures ReadTail(b, o, BaseOf(m)) == Done(At(m, e)) <==>
      TailOk(m, marker) && e == o + |EncodeTail(m, marker)| && Holds(b, o, EncodeTail(m, marker))
  {
    hide Holds, TakeUInt16LE, TakeUInt32LE, ReadCollation, UInt16LE, UInt32LE, ToBuffer, CollationOk, LayoutOf;
    if m.dataLength.Some? && m.collation.Some? {
      var n, c := m.dataLength.value, m.collation.value;
      if LayoutOf(m.typeNumber) == Length16Collation {
        NumberExact(b, o, n, o + 2);
        CollationExact(b, o + 2, c, e);
        if n < 0x1_0000 && CollationOk(c) {
          HoldsBoth(b, o, UInt16LE(n), ToBuffer(c));
        }
      } else {
        Number32Exact(b, o, n, o + 4);
        CollationExact(b, o + 4, c, e);
        if n < 0x1_0000_0000 && CollationOk(c) {
          HoldsBoth(b, o, UInt32LE(n), ToBuffer(c));
        }
      }
    }
  }

  lemma PrecisionExact(b: seq<byte>, o: nat, m: Metadata, e: nat, marker: byte)
    requires o <= |b| && LayoutOf(m.typeNumber) == PrecisionScale
    ensures ReadTail(b, o, BaseOf(m)) == Done(At(m, e)) <==>
      TailOk(m, marker) && e == o + |EncodeTail(m, marker)| && Holds(b, o, EncodeTail(m, marker))
  {
    hide Holds, ReadUInt8, LayoutOf;
    if m.dataLength.Some? && m.precision.Some? && m.scale.Some? && m.dataLength.value < 256 {
      NumberExact(b, o, m.dataLength.value, o + 1);
      NumberExact(b, o + 1, m.precision.value, o + 2);
      NumberExact(b, o + 2, m.scale.value, e);
      HoldsBoth(b, o, [m.dataLength.value], [m.precision.value]);
      HoldsBoth(b, o, [m.dataLength.value] + [m.precision.value], [m.scale.value]);
    }
  }

  predicate MetadataOk(m: Metadata, marker: byte, old72: bool) {
    m.userType < (if old72 then 0x1_0000 else 0x1_0000_0000) && m.flags < 0x1_0000 && TailOk(m, marker)
  }

  /** The metadata on the wire; the marker stands for a schema that is absent. */
  function EncodeMetadata(m: Metadata, marker: byte, old72: bool): (s: seq<byte>)
    requires MetadataOk(m, marker, old72)
  {
    (if old72 then UInt16LE(m.userType) else UInt32LE(m.userType)) + UInt16LE(m.flags) + [m.typeNumber] + EncodeTail(m, marker)
  }

  /** What is read is what is there, and all that is well-formed is read: every type, every field, and where it ends. */
  lemma {:induction false} MetadataExact(b: seq<byte>, o: nat, m: Metadata, e: nat, old72: bool)
    ensures ReadMetadata(b, o, old72) == Done(At(m, e)) <==>
      exists marker ::
        MetadataOk(m, marker, old72) && e == o + |EncodeMetadata(m, marker, old72)| && Holds(b, o, EncodeMetadata(m, marker, old72))
  {
    hide MetadataOk, EncodeMetadata, Holds, ReadMetadata;
    var at := o + (if old72 then 2 else 4) + 3;
    if ReadMetadata(b, o, old72) == Done(At(m, e)) {
      var marker := if at < |b| then b[at] else 0;
      MetadataExactFor(b, o, m, e, marker, old72);
    }
    forall marker: byte | MetadataOk(m, marker, old72) && e == o + |EncodeMetadata(m, marker, old72)| && Holds(b, o, EncodeMetadata(m, marker, old72))
      ensures ReadMetadata(b, o, old72) == Done(At(m, e))
    {
      if at < |b| {
        MarkerSeen(b, o, m, marker, old72);
      }
      MetadataExactFor(b, o, m, e, if at < |b| then b[at] else marker, old72);
    }
  }

  /** The marker is the byte that is there, or makes no difference. */
  lemma MarkerSeen(b: seq<byte>, o: nat, m: Metadata, marker: byte, old72: bool)
    requires MetadataOk(m, marker, old72) && Holds(b, o, EncodeMetadata(m, marker, old72))
    requires o + (if old72 then 2 else 4) + 3 < |b|
    ensures
      var seen := b[o + (if old72 then 2 else 4) + 3];
      MetadataOk(m, seen, old72) && EncodeMetadata(m, seen, old72) == EncodeMetadata(m, marker, old72)
  {
    hide UInt16LE, UInt32LE, BVarChar, UsVarChar, ToBuffer, EncodeUDTInfo, LayoutOf;
    var n := (if old72 then 2 else 4) + 3;
    if LayoutOf(m.typeNumber) == XmlSchema {
      var s := EncodeMetadata(m, marker, old72);
      assert s[n] == EncodeTail(m, marker)[0] == marker;
      assert b[o..o + |s|][n] == b[o + n];
    }
  }

  lemma {:induction false} MetadataExactFor(b: seq<byte>, o: nat, m: Metadata, e: nat, marker: byte, old72: bool)
    requires var at := o + (if old72 then 2 else 4) + 3; at < |b| ==> marker == b[at]
    ensures ReadMetadata(b, o, old72) == Done(At(m, e)) <==>
      MetadataOk(m, marker, old72) && e == o + |EncodeMetadata(m, marker, old72)| && Holds(b, o, EncodeMetadata(m, marker, old72))
  {
    hide Holds, ReadTail, TailOk, EncodeTail, UInt16LE, UInt32LE, ReadUInt8, TakeUInt16LE, TakeUInt32LE;
    var n := if old72 then 2 else 4;
    NumberExact(b, o, m.userType, o + 2);
    Number32Exact(b, o, m.userType, o + 4);
    NumberExact(b, o + n, m.flags, o + n + 2);
    NumberExact(b, o + n + 2, m.typeNumber, o + n + 3);
    if o + n + 3 <= |b| {
      TailExact(b, o + n + 3, m, e, marker);
    }
    if MetadataOk(m, marker, old72) {
      var u := if old72 then UInt16LE(m.userType) else UInt32LE(m.userType);
      HoldsBoth(b, o, u, UInt16LE(m.flags));
      HoldsBoth(b, o, u + UInt16LE(m.flags), [m.typeNumber]);
      HoldsBoth(b, o, u + UInt16LE(m.flags) + [m.typeNumber], EncodeTail(m, marker));
    }
  }

  /** How much data is enough: all that is read in the end, and nothing less is taken for something else. */
  lemma {:induction false} EnoughExactly(b: seq<byte>, o: nat, part: seq<byte>, old72: bool)
    requires part <= b && o <= |part| && ReadMetadata(b, o, old72).Done?
    ensures ReadMetadata(part, o, old72) == ReadMetadata(b, o, old72) || ReadMetadata(part, o, old72).NotEnough?
    ensures ReadMetadata(part, o, old72).Done? <==> |part| >= ReadMetadata(b, o, old72).at.offset
  {
    hide ReadMetadata, MetadataOk, EncodeMetadata;
    var a := ReadMetadata(b, o, old72).at;
    MetadataExact(b, o, a.value, a.offset, old72);
    if |part| >= a.offset {
      var marker :| MetadataOk(a.value, marker, old72) && a.offset == o + |EncodeMetadata(a.value, marker, old72)|
        && Holds(b, o, EncodeMetadata(a.value, marker, old72));
      assert part[o..a.offset] == b[o..a.offset];
      assert Holds(part, o, EncodeMetadata(a.value, marker, old72));
      MetadataExact(part, o, a.value, a.offset, old72);
    } else {
      assert part[o..] == b[o..|part|];
      MetadataLocal(part, o, b, o, old72);
    }
  }

  // The parser, which keeps what it has not consumed.

  datatype Outcome = Parsed(metadata: Metadata) | Unrecognised(typeNumber: byte) | Waiting

  class Parser {
    var buffer: seq<byte>
    var position: nat
    // What the iterator has still to give.
    var chunks: seq<seq<byte>>

    ghost predicate Valid()
      reads this
    {
      position <= |buffer|
    }

    /** All that has not been consumed, arrived or not. */
    ghost function Stream(): seq<byte>
      requires Valid()
      reads this
    {
      buffer[position..] + Concat(chunks)
    }

    constructor (chunks: seq<seq<byte>>)
      ensures Valid() && Stream() == Concat(chunks)
    {
      buffer, position := [], 0;
      this.chunks := chunks;
    }

    method WaitForChunk() returns (done: bool)
      requires Valid()
      modifies this
      ensures Valid() && Stream() == old(Stream())
      ensures done == (old(chunks) == [])
      ensures if done then chunks == [] && buffer == old(buffer) && position == old(position) else chunks == old(chunks)[1..]
    {
      if chunks == [] {
        return true;
      }
      if position == |buffer| {
        buffer := chunks[0];
      } else {
        buffer := buffer[position..] + chunks[0];
      }
      chunks := chunks[1..];
      position := 0;
      return false;
    }

    /**
     Reads again from the front until there is enough. How the stream is cut into
     chunks makes no difference: the outcome, and what is left, depend on the whole
     alone. Waiting is for more than the stream has.
     */
    method MetadataParse(old72: bool) returns (r: Outcome)
      requires Valid()
      modifies this
      ensures Valid()
      ensures match ReadMetadata(old(Stream()), 0, old72)
              case Done(a) => r == Parsed(a.value) && Stream() == old(Stream())[a.offset..]
              case Failed(t) => r == Unrecognised(t) && Stream() == old(Stream())
              case NotEnough(_) => r == Waiting && Stream() == old(Stream())
    {
      hide ReadMetadata;
      ghost var s := Stream();
      while true
        invariant Valid() && Stream() == s
        decreases |chunks|
      {
        var result := ReadMetadata(buffer, position, old72);
        assert Sees(buffer, position, s, 0);
        MetadataLocal(buffer, position, s, 0, old72);
        match result
        case NotEnough(_) =>
          var done := WaitForChunk();
          if done {
            assert Sees(s, 0, buffer, position);
            MetadataLocal(s, 0, buffer, position, old72);
            return Waiting;
          }
        case Failed(t) => return Unrecognised(t);
        case Done(a) =>
          assert s[a.offset - position..] == buffer[a.offset..] + Concat(chunks);
          position := a.offset;
          return Parsed(a.value);
      }
    }
  }
}
