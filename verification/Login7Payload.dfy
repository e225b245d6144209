/**
 The LOGIN7 message (section 2.2.6.4 of MS-TDS): 94 fixed bytes, with a table of
 offsets and lengths, and after them the data that the table points to.
 */
module Login7Payload {
  import opened Wrappers
  import opened Bytes

  const FIXED: nat := 94

  type UInt32 = x: int | 0 <= x < 0x1_0000_0000

  type Int32 = x: int | -0x8000_0000 <= x < 0x8000_0000

  datatype FedAuth = NoFedAuth | Adal(echo: bool, integrated: bool) | SecurityToken(echo: bool, token: seq<CodeUnit>)

  /** What a connection puts into the message; an empty string is the same as none. */
  datatype Login = Login(
    tdsVersion: UInt32, packetSize: UInt32, clientProgVer: UInt32, clientPid: UInt32, connectionId: UInt32,
    clientTimeZone: Int32, clientLcid: UInt32, readOnlyIntent: bool, initDbFatal: bool, fedAuth: FedAuth,
    hostname: seq<CodeUnit>, userName: seq<CodeUnit>, password: seq<CodeUnit>, appName: seq<CodeUnit>,
    serverName: seq<CodeUnit>, libraryName: seq<CodeUnit>, language: seq<CodeUnit>, database: seq<CodeUnit>,
    clientId: Option<seq<byte>>, sspi: Option<seq<byte>>, attachDbFile: seq<CodeUnit>, changePassword: seq<CodeUnit>)

  // Scrambling.

  /** The two halves of a byte exchanged. */
  function Swap(b: byte): byte {
    b as int % 16 * 16 + b as int / 16
  }

  /** Exclusive or, over the lowest `bits` bits. */
  function Xor(a: nat, b: nat, bits: nat): (r: nat) {
    if bits == 0 then 0 else (a + b) % 2 + 2 * Xor(a / 2, b / 2, bits - 1)
  }

  function Power(bits: nat): nat {
    if bits == 0 then 1 else 2 * Power(bits - 1)
  }

  lemma {:induction false} XorBelow(a: nat, b: nat, bits: nat)
    ensures Xor(a, b, bits) < Power(bits)
    decreases bits
  {
    if bits > 0 {
      XorBelow(a / 2, b / 2, bits - 1);
    }
  }

  lemma {:induction false} XorTwice(a: nat, b: nat, bits: nat)
    requires a < Power(bits)
    ensures Xor(Xor(a, b, bits), b, bits) == a
    decreases bits
  {
    if bits > 0 {
      XorTwice(a / 2, b / 2, bits - 1);
      OneBit(a, b, Xor(a / 2, b / 2, bits - 1));
    }
  }

  lemma OneBit(a: nat, b: nat, rest: nat)
    ensures var x := (a + b) % 2 + 2 * rest; x / 2 == rest && (x + b) % 2 == a % 2
  {
  }

  lemma EightBits()
    ensures Power(8) == 256
  {
    assert Power(4) == 16;
    assert Power(6) == 64;
  }

  const MASK: byte := 0xa5

  function XorMask(b: byte): (r: byte) {
    EightBits();
    XorBelow(b, MASK, 8);
    Xor(b, MASK, 8)
  }

  function Scramble(b: byte): byte {
    XorMask(Swap(b))
  }

  function Unscramble(b: byte): byte {
    Swap(XorMask(b))
  }

  function Scrambled(s: seq<byte>): (r: seq<byte>)
    ensures |r| == |s|
  {
    seq(|s|, i requires 0 <= i < |s| => Scramble(s[i]))
  }

  function Unscrambled(s: seq<byte>): (r: seq<byte>)
    ensures |r| == |s|
  {
    seq(|s|, i requires 0 <= i < |s| => Unscramble(s[i]))
  }

  lemma SwapTwice(b: byte)
    ensures Swap(Swap(b)) == b
  {
    var low, high := b as int % 16, b as int / 16;
    assert (low * 16 + high) % 16 == high && (low * 16 + high) / 16 == low;
  }

  lemma MaskTwice(b: byte)
    ensures XorMask(XorMask(b)) == b
  {
    EightBits();
    XorTwice(b, MASK, 8);
    hide Xor;
  }

  lemma UnscrambleByte(b: byte)
    ensures Unscramble(Scramble(b)) == b
  {
    hide Swap, XorMask;
    MaskTwice(Swap(b));
    SwapTwice(b);
  }

  lemma {:induction false} XorHalf(a: nat, b: nat, bits: nat)
    requires bits > 0
    ensures Xor(a, b, bits) % 2 == (a + b) % 2 && Xor(a, b, bits) / 2 == Xor(a / 2, b / 2, bits - 1)
  {
  }

  lemma {:induction false} XorMaskIs(b: byte)
    ensures XorMask(b) as int == Xor(b, MASK, 8)
  {
    hide Xor;
  }

  lemma UnscrambleScrambled(s: seq<byte>)
    ensures Unscrambled(Scrambled(s)) == s
  {
    forall i | 0 <= i < |s| ensures Unscrambled(Scrambled(s))[i] == s[i] {
      UnscrambleByte(s[i]);
    }
  }

  /** The bit of that place, counted from the lowest. */
  function BitAt(n: nat, i: nat): bool {
    if i == 0 then n % 2 == 1 else BitAt(n / 2, i - 1)
  }

  lemma {:induction false} XorBit(a: nat, b: nat, bits: nat, i: nat)
    requires i < bits
    ensures BitAt(Xor(a, b, bits), i) <==> BitAt(a, i) != BitAt(b, i)
    decreases i
  {
    hide Xor;
    XorHalf(a, b, bits);
    if i > 0 {
      XorBit(a / 2, b / 2, bits - 1, i - 1);
    }
  }

  lemma {:induction false} FourUp(n: nat, i: nat)
    ensures BitAt(n, i + 4) == BitAt(n / 16, i)
  {
    assert BitAt(n, i + 4) == BitAt(n / 2, i + 3) == BitAt(n / 2 / 2, i + 2) == BitAt(n / 2 / 2 / 2, i + 1) == BitAt(n / 2 / 2 / 2 / 2, i);
    assert n / 2 / 2 / 2 / 2 == n / 16;
  }

  lemma {:induction false} LowFour(n: nat, high: nat, i: nat)
    requires i < 4
    ensures BitAt(n % 16 + 16 * high, i) == BitAt(n, i)
  {
    LowBit(n % 16, high, n / 16, i, 4);
    assert n == n % 16 + 16 * (n / 16);
  }

  /** What is added above a place makes no difference there. */
  lemma {:induction false} LowBit(n: nat, high: nat, other: nat, i: nat, k: nat)
    requires i < k
    ensures BitAt(n + Power(k) * high, i) == BitAt(n + Power(k) * other, i)
    decreases k
  {
    var p := Power(k - 1);
    assert Power(k) == 2 * p;
    Halve(n, p, high);
    Halve(n, p, other);
    if i > 0 {
      LowBit(n / 2, high, other, i - 1, k - 1);
    }
  }

  lemma {:induction false} Halve(n: nat, p: nat, h: nat)
    ensures (n + 2 * p * h) / 2 == n / 2 + p * h && (n + 2 * p * h) % 2 == n % 2
  {
    assert 2 * p * h == 2 * (p * h);
  }

  lemma {:induction false} SwapBit(b: byte, i: nat)
    requires i < 8
    ensures BitAt(Swap(b), i) == BitAt(b, (i + 4) % 8)
  {
    hide BitAt, Swap;
    if i < 4 {
      assert (i + 4) % 8 == i + 4;
      SwapLow(b, i);
    } else {
      assert (i + 4) % 8 == i - 4;
      SwapHigh(b, i - 4);
    }
  }

  lemma {:induction false} SwapLow(b: byte, i: nat)
    requires i < 4
    ensures BitAt(Swap(b), i) == BitAt(b, i + 4)
  {
    var low, high := b as int % 16, b as int / 16;
    assert Swap(b) as int == high % 16 + 16 * low;
    hide Swap, BitAt;
    LowFour(high, low, i);
    FourUp(b, i);
  }

  lemma {:induction false} SwapHigh(b: byte, i: nat)
    requires i < 4
    ensures BitAt(Swap(b), i + 4) == BitAt(b, i)
  {
    assert Swap(b) as int / 16 == b as int % 16;
    hide Swap, BitAt;
    FourUp(Swap(b), i);
    LowFour(b, 0, i);
  }

  lemma {:induction false} MaskBit(i: nat)
    requires i < 8
    ensures BitAt(0xA5, i) <==> i in {0, 2, 5, 7}
  {
    if i == 0 {
    } else if i == 1 {
      assert BitAt(0xA5, 1) == BitAt(0x52, 0);
    } else if i == 2 {
      assert BitAt(0xA5, 2) == BitAt(0x52, 1) == BitAt(0x29, 0);
    } else if i == 3 {
      assert BitAt(0xA5, 3) == BitAt(0x52, 2) == BitAt(0x29, 1) == BitAt(0x14, 0);
    } else {
      FourUp(0xA5, i - 4);
      if i == 4 {
      } else if i == 5 {
        assert BitAt(10, 1) == BitAt(5, 0);
      } else if i == 6 {
        assert BitAt(10, 2) == BitAt(5, 1) == BitAt(2, 0);
      } else {
        assert BitAt(10, 3) == BitAt(5, 2) == BitAt(2, 1) == BitAt(1, 0);
      }
    }
  }

  /** The halves of the byte change places, and after that the bits 0, 2, 5 and 7 are flipped, and no others. */
  predicate Hides(hidden: byte, plain: byte) {
    forall i | 0 <= i < 8 :: BitAt(hidden, i) == (BitAt(plain, (i + 4) % 8) != (i in {0, 2, 5, 7}))
  }

  lemma {:induction false} ScrambleBits(b: byte)
    ensures Hides(Scramble(b), b)
  {
    forall i | 0 <= i < 8 ensures BitAt(Scramble(b), i) == (BitAt(b, (i + 4) % 8) != (i in {0, 2, 5, 7})) {
      XorMaskIs(Swap(b));
      XorBit(Swap(b), 0xA5, 8, i);
      SwapBit(b, i);
      MaskBit(i);
      hide Xor, XorMask, Swap, BitAt;
    }
  }

  /** The bits make the number, so that the law above leaves no choice. */
  lemma {:induction false} BitsDecide(a: nat, b: nat, k: nat)
    requires a < Power(k) && b < Power(k)
    requires forall i | 0 <= i < k :: BitAt(a, i) == BitAt(b, i)
    ensures a == b
    decreases k
  {
    if k > 0 {
      assert BitAt(a, 0) == BitAt(b, 0);
      forall i | 0 <= i < k - 1 ensures BitAt(a / 2, i) == BitAt(b / 2, i) {
        assert BitAt(a, i + 1) == BitAt(b, i + 1);
      }
      BitsDecide(a / 2, b / 2, k - 1);
    }
  }

  lemma {:induction false} HiddenOneWay(a: byte, b: byte, plain: byte)
    requires Hides(a, plain) && Hides(b, plain)
    ensures a == b
  {
    assert Power(4) == 16 && Power(8) == 256 by {
      assert Power(2) == 4 && Power(6) == 4 * Power(4);
    }
    BitsDecide(a, b, 8);
  }

  /** No byte is its own un-scrambling: the lowest bits of the two halves would have to be the same, and different. */
  lemma {:induction false} NoFixedByte(b: byte)
    ensures Unscramble(b) != b
  {
    hide Xor, XorMask, Swap, BitAt;
    var x := XorMask(b);
    XorMaskIs(b);
    XorBit(b, 0xA5, 8, 0);
    XorBit(b, 0xA5, 8, 4);
    MaskBit(0);
    MaskBit(4);
    SwapLow(x, 0);
    SwapHigh(x, 0);
    assert BitAt(Swap(x), 0) == BitAt(b, 4) && BitAt(Swap(x), 4) != BitAt(b, 0);
  }

  method ScramblePassword(password: array<byte>)
    modifies password
    ensures password[..] == Scrambled(old(password[..]))
    ensures forall i | 0 <= i < password.Length :: Hides(password[i], old(password[i]))
  {
    hide Hides;
    var b := 0;
    while b < password.Length
      invariant 0 <= b <= password.Length
      invariant forall i | 0 <= i < b :: password[i] == Scramble(old(password[i])) && Hides(password[i], old(password[i]))
      invariant forall i | b <= i < password.Length :: password[i] == old(password[i])
    {
      var v := password[b];
      var lowNibble := v as int % 16;
      var highNibble := v as int / 16;
      v := lowNibble * 16 + highNibble;
      v := XorMask(v);
      ScrambleBits(password[b]);
      password[b] := v;
      b := b + 1;
    }
  }

  // The feature extension.

  datatype Feature = Feature(id: byte, data: seq<byte>)

  const TERMINATOR: byte := 0xFF

  function FeatureBytes(f: Feature): (s: seq<byte>)
    requires |f.data| < 0x1_0000_0000
    ensures |s| == 5 + |f.data|
  {
    [f.id] + UInt32LE(|f.data|) + f.data
  }

  predicate Writable(fs: seq<Feature>) {
    forall f | f in fs :: |f.data| < 0x1_0000_0000 && f.id != TERMINATOR
  }

  function FeatureExt(fs: seq<Feature>): (s: seq<byte>)
    requires Writable(fs)
    ensures |s| > 0
  {
    if fs == [] then [TERMINATOR] else FeatureBytes(fs[0]) + FeatureExt(fs[1..])
  }

  /** Walks a feature extension by id and length: the features, and where it ends. */
  function Walk(s: seq<byte>, at: nat): Option<(seq<Feature>, nat)>
    decreases |s| - at
  {
    if at >= |s| then None
    else if s[at] == TERMINATOR then Some(([], at + 1))
    else if at + 5 > |s| then None
    else
      var next := at + 5 + ReadUInt32LE(s, at + 1);
      if next > |s| then None
      else
        var rest :- Walk(s, next);
        Some(([Feature(s[at], s[at + 5..next])] + rest.0, rest.1))
  }

  lemma ReadFeature(s: seq<byte>, pre: seq<byte>, f: Feature, post: seq<byte>)
    requires |f.data| < 0x1_0000_0000 && s == pre + FeatureBytes(f) + post
    ensures |s| >= |pre| + 5 + |f.data| && s[|pre|] == f.id && ReadUInt32LE(s, |pre| + 1) == |f.data|
    ensures s[|pre| + 5..|pre| + 5 + |f.data|] == f.data
  {
    var len := UInt32LE(|f.data|);
    assert s[|pre| + 1..|pre| + 5] == len == len[0..4];
    ReadUInt32LEAt(s, |pre| + 1, len, 0);
  }

  lemma Regroup(pre: seq<byte>, a: seq<byte>, b: seq<byte>, post: seq<byte>)
    ensures pre + (a + b) + post == pre + a + (b + post) == (pre + a) + b + post
  {
  }

  lemma WalkEnd(s: seq<byte>, at: nat)
    requires at < |s| && s[at] == TERMINATOR
    ensures Walk(s, at) == Some(([], at + 1))
  {
  }

  lemma WalkOn(s: seq<byte>, at: nat, f: Feature, fs: seq<Feature>, end: nat)
    requires at + 5 + |f.data| <= |s| && s[at] == f.id != TERMINATOR && ReadUInt32LE(s, at + 1) == |f.data|
    requires s[at + 5..at + 5 + |f.data|] == f.data && Walk(s, at + 5 + |f.data|) == Some((fs, end))
    ensures Walk(s, at) == Some(([f] + fs, end))
  {
    hide ReadUInt32LE;
  }

  /** What is written by id and length is read back, and the walk ends right behind the terminator. */
  lemma {:induction false} WalkExt(pre: seq<byte>, fs: seq<Feature>, post: seq<byte>)
    requires Writable(fs)
    ensures Walk(pre + FeatureExt(fs) + post, |pre|) == Some((fs, |pre| + |FeatureExt(fs)|))
    decreases |fs|
  {
    hide FeatureBytes, ReadUInt32LE, Walk;
    var s := pre + FeatureExt(fs) + post;
    if fs == [] {
      WalkEnd(s, |pre|);
    } else {
      var f := fs[0];
      assert f in fs && Writable(fs[1..]);
      var rest := FeatureExt(fs[1..]);
      Regroup(pre, FeatureBytes(f), rest, post);
      ReadFeature(s, pre, f, rest + post);
      WalkExt(pre + FeatureBytes(f), fs[1..], post);
      WalkOn(s, |pre|, f, fs[1..], |pre| + |FeatureExt(fs)|);
      assert [f] + fs[1..] == fs;
    }
  }

  const VERSION_7_4: UInt32 := 0x74000004

  predicate TokenFits(a: FedAuth) {
    a.SecurityToken? ==> 2 * |a.token| < 0x8000_0000
  }

  function AdalFeature(echo: bool, integrated: bool): Feature {
    Feature(0x02, [if echo then 0x05 else 0x04, if integrated then 0x02 else 0x01])
  }

  function TokenFeature(echo: bool, token: seq<byte>): Feature
    requires |token| < 0x8000_0000
  {
    Feature(0x02, [if echo then 0x03 else 0x02] + UInt32LE(|token|) + token)
  }

  function FedAuthFeatures(a: FedAuth): (fs: seq<Feature>)
    requires TokenFits(a)
    ensures Writable(fs)
  {
    match a
    case NoFedAuth => []
    case Adal(echo, integrated) =>
      [AdalFeature(echo, integrated)]
    case SecurityToken(echo, token) =>
      [TokenFeature(echo, Ucs2(token))]
  }

  function Features(p: Login): (fs: seq<Feature>)
    requires TokenFits(p.fedAuth)
    ensures Writable(fs)
  {
    FedAuthFeatures(p.fedAuth) + if p.tdsVersion >= VERSION_7_4 then [Feature(0x0a, [0x01])] else []
  }

  // The table and the data it points to.

  /** A table entry: the data, the length that is written for it, and how far the next offset moves on. */
  datatype Slot = Slot(data: seq<byte>, count: nat, step: nat)

  function Text(s: seq<CodeUnit>): Slot {
    Slot(Ucs2(s), |s|, 2 * |s|)
  }

  function Host(s: seq<CodeUnit>): Slot {
    if s == [] then Slot([], FIXED, 0) else Text(s)
  }

  function Secret(s: seq<CodeUnit>): Slot {
    Slot(Scrambled(Ucs2(s)), |s|, 2 * |s|)
  }

  function Extension(p: Login): Slot
    requires TokenFits(p.fedAuth)
  {
    var ext := FeatureExt(Features(p));
    var at := FIXED + 2 * (|p.hostname| + |p.userName| + |p.password| + |p.appName| + |p.serverName|) + 4;
    Slot(UInt32LE(at % 0x1_0000_0000) + ext, 4, 4 + |ext|)
  }

  function Sspi(s: Option<seq<byte>>): Slot {
    match s
    case None => Slot([], 0, 0)
    case Some(b) => Slot(b, if |b| > 65535 then 65535 else |b|, 0)
  }

  const SLOTS: nat := 12

  function Slots(p: Login): (slots: seq<Slot>)
    requires TokenFits(p.fedAuth)
    ensures |slots| == SLOTS
  {
    [Host(p.hostname), Text(p.userName), Secret(p.password), Text(p.appName), Text(p.serverName), Extension(p),
     Text(p.libraryName), Text(p.language), Text(p.database), Sspi(p.sspi), Text(p.attachDbFile), Text(p.changePassword)]
  }

  function Offset(slots: seq<Slot>, k: nat): nat
    requires k <= |slots|
  {
    if k == 0 then FIXED else Offset(slots, k - 1) + slots[k - 1].step
  }

  function Data(slots: seq<Slot>, k: nat): seq<byte>
    requires k <= |slots|
  {
    if k == 0 then [] else Data(slots, k - 1) + slots[k - 1].data
  }

  /** Both numbers of the entry fit in 16 bits. */
  predicate FitsAt(slots: seq<Slot>, k: nat)
    requires k < |slots|
  {
    Offset(slots, k) < 0x1_0000 && slots[k].count < 0x1_0000
  }

  predicate AllFit(slots: seq<Slot>, k: nat)
    requires k <= |slots|
  {
    forall j | 0 <= j < k :: FitsAt(slots, j)
  }

  function Pair(slots: seq<Slot>, k: nat): (s: seq<byte>)
    requires k < |slots| && FitsAt(slots, k)
    ensures |s| == 4
  {
    UInt16LE(Offset(slots, k)) + UInt16LE(slots[k].count)
  }

  function Flags1(p: Login): byte {
    0x10 + 0x20 + 0x80 + if p.initDbFatal then 0x40 else 0x00
  }

  function Flags2(p: Login): byte {
    if p.sspi.Some? then 0x80 else 0x00
  }

  function TypeFlags(p: Login): byte {
    if p.readOnlyIntent then 0x20 else 0x00
  }

  const FLAGS_3: byte := 0x18

  /** The two's complement of a signed integer. */
  function Unsigned(n: Int32): UInt32 {
    if n < 0 then n + 0x1_0000_0000 else n
  }

  function Signed(n: UInt32): Int32 {
    if n >= 0x8000_0000 then n - 0x1_0000_0000 else n
  }

  const HEADER: nat := 36

  function Header(p: Login): (s: seq<byte>)
    ensures |s| == HEADER
  {
    UInt32LE(0) + UInt32LE(p.tdsVersion) + UInt32LE(p.packetSize) + UInt32LE(p.clientProgVer) + UInt32LE(p.clientPid)
      + UInt32LE(p.connectionId) + [Flags1(p)] + [Flags2(p)] + [TypeFlags(p)] + [FLAGS_3]
      + UInt32LE(Unsigned(p.clientTimeZone)) + UInt32LE(p.clientLcid)
  }

  /** The first six bytes of the client id, or as many as it has. */
  function ClientId(p: Login): (s: seq<byte>)
    ensures |s| == 6
  {
    if p.clientId.None? then Zeros(6)
    else if |p.clientId.value| < 6 then p.clientId.value + Zeros(6 - |p.clientId.value|)
    else p.clientId.value[..6]
  }

  /** Where the entry is in the table: the client id stands between the ninth and the tenth. */
  function EntryAt(k: nat): nat {
    HEADER + 4 * k + if k < 9 then 0 else 6
  }

  function Fixed(p: Login, slots: seq<Slot>, k: nat): (s: seq<byte>)
    requires k <= |slots| && AllFit(slots, k)
    ensures |s| == HEADER + 4 * k + if k < 10 then 0 else 6
  {
    if k == 0 then Header(p)
    else Fixed(p, slots, k - 1) + (if k == 10 then ClientId(p) else []) + Pair(slots, k - 1)
  }

  function SspiLong(p: Login): nat {
    if p.sspi.Some? && |p.sspi.value| > 65535 then |p.sspi.value| else 0
  }

  function Total(p: Login): nat
    requires TokenFits(p.fedAuth)
  {
    FIXED + |Data(Slots(p), SLOTS)|
  }

  /** Every number that is written fits where it is written. */
  predicate Fits(p: Login) {
    && TokenFits(p.fedAuth) && AllFit(Slots(p), SLOTS)
    && SspiLong(p) < 0x1_0000_0000 && Total(p) < 0x1_0000_0000
  }

  /** The message. */
  function Encode(p: Login): (s: seq<byte>)
    requires Fits(p)
    ensures |s| == Total(p)
  {
    UInt32LE(Total(p)) + Fixed(p, Slots(p), SLOTS)[4..] + UInt32LE(SspiLong(p)) + Data(Slots(p), SLOTS)
  }

  // Writing into a buffer, front to back.

  datatype Outcome<+T> = Done(value: T) | RangeError {
    predicate IsFailure() { RangeError? }
    function PropagateFailure<U>(): Outcome<U>
      requires RangeError?
    {
      RangeError
    }
    function Extract(): T
      requires Done?
    {
      value
    }
  }

  /** Holds `s`, and zeros behind it. */
  ghost predicate Holds(buffer: array<byte>, s: seq<byte>)
    reads buffer
  {
    |s| <= buffer.Length && buffer[..] == s + Zeros(buffer.Length - |s|)
  }

  method Alloc(n: nat) returns (buffer: array<byte>)
    ensures fresh(buffer) && buffer.Length == n && Holds(buffer, [])
  {
    buffer := new byte[n](_ => 0);
  }

  method Put(buffer: array<byte>, s: seq<byte>, offset: nat, ghost front: seq<byte>) returns (next: nat)
    requires Holds(buffer, front) && offset == |front| && offset + |s| <= buffer.Length
    modifies buffer
    ensures Holds(buffer, front + s) && next == offset + |s|
    ensures next == buffer.Length ==> buffer[..] == front + s
  {
    forall i | 0 <= i < |s| {
      buffer[offset + i] := s[i];
    }
    next := offset + |s|;
    assert buffer[..] == front + s + Zeros(buffer.Length - next);
  }

  method WriteUInt8(buffer: array<byte>, value: byte, offset: nat, ghost front: seq<byte>) returns (next: nat)
    requires Holds(buffer, front) && offset == |front| < buffer.Length
    modifies buffer
    ensures Holds(buffer, front + [value]) && next == offset + 1
    ensures next == buffer.Length ==> buffer[..] == front + [value]
  {
    next := Put(buffer, [value], offset, front);
  }

  method WriteUInt16LE(buffer: array<byte>, value: nat, offset: nat, ghost front: seq<byte>) returns (next: Outcome<nat>)
    requires Holds(buffer, front) && offset == |front| && offset + 2 <= buffer.Length
    modifies buffer
    ensures next.Done? <==> value < 0x1_0000
    ensures next.Done? ==> Holds(buffer, front + UInt16LE(value)) && next.value == offset + 2
  {
    if value >= 0x1_0000 {
      return RangeError;
    }
    var n := Put(buffer, UInt16LE(value), offset, front);
    return Done(n);
  }

  method WriteUInt32LE(buffer: array<byte>, value: nat, offset: nat, ghost front: seq<byte>) returns (next: Outcome<nat>)
    requires Holds(buffer, front) && offset == |front| && offset + 4 <= buffer.Length
    modifies buffer
    ensures next.Done? <==> value < 0x1_0000_0000
    ensures next.Done? ==> Holds(buffer, front + UInt32LE(value)) && next.value == offset + 4
  {
    if value >= 0x1_0000_0000 {
      return RangeError;
    }
    var n := Put(buffer, UInt32LE(value), offset, front);
    return Done(n);
  }

  /** An extension without its terminator. */
  function ExtBody(fs: seq<Feature>): seq<byte>
    requires Writable(fs)
  {
    if fs == [] then [] else FeatureBytes(fs[0]) + ExtBody(fs[1..])
  }

  lemma {:induction false} ExtIs(fs: seq<Feature>)
    requires Writable(fs)
    ensures FeatureExt(fs) == ExtBody(fs) + [TERMINATOR]
  {
    hide FeatureBytes;
    if fs != [] {
      ExtIs(fs[1..]);
      Associate(FeatureBytes(fs[0]), ExtBody(fs[1..]), [TERMINATOR]);
    }
  }

  lemma {:induction false} Associate(a: seq<byte>, b: seq<byte>, c: seq<byte>)
    ensures a + (b + c) == a + b + c
  {
  }

  lemma {:induction false} ExtAppend(fs: seq<Feature>, f: Feature)
    requires Writable(fs + [f]) && Writable(fs)
    ensures ExtBody(fs + [f]) == ExtBody(fs) + FeatureBytes(f)
  {
    hide FeatureBytes;
    if fs == [] {
      assert fs + [f] == [f] && [f][1..] == [];
      assert ExtBody([f]) == FeatureBytes(f) + ExtBody([]);
    } else {
      assert (fs + [f])[1..] == fs[1..] + [f] && (fs + [f])[0] == fs[0];
      assert forall g | g in fs[1..] + [f] :: g in fs + [f];
      ExtAppend(fs[1..], f);
      Associate(FeatureBytes(fs[0]), ExtBody(fs[1..]), FeatureBytes(f));
    }
  }

  /** Adding the buffer of one more feature, ahead of the terminator. */
  lemma AddFeature(buffers: seq<seq<byte>>, fs: seq<Feature>, buffer: seq<byte>, f: Feature)
    requires Writable(fs + [f]) && Writable(fs) && Concat(buffers) + [TERMINATOR] == FeatureExt(fs)
    requires buffer == FeatureBytes(f)
    ensures Concat(buffers + [buffer]) + [TERMINATOR] == FeatureExt(fs + [f])
  {
    ExtIs(fs);
    ExtIs(fs + [f]);
    ExtAppend(fs, f);
    ConcatOne(buffers, buffer);
    hide FeatureBytes, FeatureExt, ExtBody;
    SameFront(Concat(buffers), ExtBody(fs), TERMINATOR);
  }

  lemma {:induction false} SameFront(a: seq<byte>, b: seq<byte>, last: byte)
    requires a + [last] == b + [last]
    ensures a == b
  {
    assert |a| == |b|;
    assert a == (a + [last])[..|a|] && b == (b + [last])[..|b|];
  }

  method BuildAdal(echo: bool, integrated: bool) returns (s: seq<byte>)
    ensures s == FeatureBytes(AdalFeature(echo, integrated))
  {
    hide UInt32LE;
    var buffer := Alloc(7);
    var offset := WriteUInt8(buffer, 0x02, 0, []);
    var length := WriteUInt32LE(buffer, 2, offset, [0x02]);
    offset := length.value;
    offset := WriteUInt8(buffer, if echo then 0x05 else 0x04, offset, [0x02] + UInt32LE(2));
    offset := WriteUInt8(buffer, if integrated then 0x02 else 0x01, offset, [0x02] + UInt32LE(2) + [if echo then 0x05 else 0x04]);
    assert buffer[..] == [0x02] + UInt32LE(2) + AdalFeature(echo, integrated).data;
    return buffer[..];
  }

  method BuildToken(echo: bool, token: seq<byte>) returns (r: Outcome<seq<byte>>)
    ensures r.Done? <==> |token| < 0x8000_0000
    ensures r.Done? ==> r.value + token == FeatureBytes(TokenFeature(echo, token))
  {
    hide UInt32LE;
    var flags: byte := if echo then 0x03 else 0x02;
    var buffer := Alloc(10);
    var offset := WriteUInt8(buffer, 0x02, 0, []);
    offset :- WriteUInt32LE(buffer, |token| + 4 + 1, offset, [0x02]);
    offset := WriteUInt8(buffer, flags, offset, [0x02] + UInt32LE(|token| + 4 + 1));
    if |token| >= 0x8000_0000 {
      return RangeError;
    }
    var length := WriteUInt32LE(buffer, |token|, offset, [0x02] + UInt32LE(|token| + 4 + 1) + [flags]);
    return Done(buffer[..]);
  }

  method BuildUtf8Support() returns (s: seq<byte>)
    ensures s == FeatureBytes(Feature(0x0a, [0x01]))
  {
    hide UInt32LE;
    var buffer := Alloc(6);
    var offset := WriteUInt8(buffer, 0x0a, 0, []);
    var length := WriteUInt32LE(buffer, 1, offset, [0x0a]);
    offset := length.value;
    offset := WriteUInt8(buffer, 0x01, offset, [0x0a] + UInt32LE(1));
    return buffer[..];
  }

  method BuildFeatureExt(p: Login) returns (r: Outcome<seq<byte>>)
    ensures r.Done? <==> TokenFits(p.fedAuth)
    ensures r.Done? ==> r.value == FeatureExt(Features(p))
  {
    hide UInt32LE, Ucs2, FeatureBytes;
    var buffers: seq<seq<byte>> := [];
    match p.fedAuth {
      case NoFedAuth =>
      case Adal(echo, integrated) =>
        var buffer := BuildAdal(echo, integrated);
        AddFeature(buffers, [], buffer, AdalFeature(echo, integrated));
        buffers := buffers + [buffer];
      case SecurityToken(echo, units) =>
        var token := Ucs2(units);
        var buffer :- BuildToken(echo, token);
        AddFeature(buffers, [], buffer + token, TokenFeature(echo, token));
        ConcatOne([buffer], token);
        ConcatOne([], buffer);
        ConcatOne([], buffer + token);
        buffers := buffers + [buffer] + [token];
    }
    assert Concat(buffers) + [TERMINATOR] == FeatureExt(FedAuthFeatures(p.fedAuth));
    if p.tdsVersion >= VERSION_7_4 {
      var buffer := BuildUtf8Support();
      AddFeature(buffers, FedAuthFeatures(p.fedAuth), buffer, Feature(0x0a, [0x01]));
      buffers := buffers + [buffer];
    }
    ConcatOne(buffers, [TERMINATOR]);
    buffers := buffers + [[TERMINATOR]];
    return Done(Concat(buffers));
  }

  // Writing the table.

  /** Where writing has got to: in the fixed part, among the offsets, and in the data. */
  datatype Cursor = Cursor(offset: nat, dataOffset: nat, buffers: seq<seq<byte>>)

  /** The first `k` entries are written, with the data that they point to. */
  ghost predicate Written(p: Login, slots: seq<Slot>, k: nat, fixed: array<byte>, c: Cursor)
    requires k <= |slots|
    reads fixed
  {
    && fixed.Length == FIXED && AllFit(slots, k)
    && Holds(fixed, Fixed(p, slots, k)) && c.offset == |Fixed(p, slots, k)|
    && c.dataOffset == Offset(slots, k) && Concat(c.buffers) == Data(slots, k)
  }

  lemma {:induction false} WrittenNext(p: Login, slots: seq<Slot>, k: nat, c: Cursor, fixed: seq<byte>, gap: seq<byte>, buffers: seq<seq<byte>>)
    requires k < SLOTS == |slots| && AllFit(slots, k) && FitsAt(slots, k)
    requires fixed == Fixed(p, slots, k) && gap == if k == 9 then ClientId(p) else []
    requires c.dataOffset == Offset(slots, k) && Concat(c.buffers) == Data(slots, k) && Concat(buffers) == slots[k].data
    ensures AllFit(slots, k + 1)
    ensures Fixed(p, slots, k + 1) == fixed + gap + UInt16LE(c.dataOffset) + UInt16LE(slots[k].count)
    ensures Offset(slots, k + 1) == c.dataOffset + slots[k].step
    ensures Concat(c.buffers + buffers) == Data(slots, k + 1)
  {
    assert AllFit(slots, k + 1) by {
      hide Fixed, Concat, Data, Offset, FitsAt;
    }
    hide UInt16LE, ClientId, Fixed, FitsAt, AllFit;
    FixedNext(p, slots, k);
    ConcatAppend(c.buffers, buffers);
    hide Concat;
  }

  lemma FixedNext(p: Login, slots: seq<Slot>, k: nat)
    requires k < SLOTS == |slots| && AllFit(slots, k + 1) && FitsAt(slots, k)
    ensures Fixed(p, slots, k + 1) ==
      Fixed(p, slots, k) + (if k == 9 then ClientId(p) else []) + UInt16LE(Offset(slots, k)) + UInt16LE(slots[k].count)
  {
    hide UInt16LE, ClientId, Offset;
    var a, b := UInt16LE(Offset(slots, k)), UInt16LE(slots[k].count);
    var front := Fixed(p, slots, k) + if k == 9 then ClientId(p) else [];
    assert front + (a + b) == front + a + b;
  }

  /** An offset and a length. */
  method WritePair(fixed: array<byte>, offset: nat, ib: nat, cch: nat, ghost front: seq<byte>) returns (next: Outcome<nat>)
    requires Holds(fixed, front) && offset == |front| && offset + 4 <= fixed.Length
    modifies fixed
    ensures next.Done? <==> ib < 0x1_0000 && cch < 0x1_0000
    ensures next.Done? ==> Holds(fixed, front + UInt16LE(ib) + UInt16LE(cch)) && next.value == offset + 4
  {
    var middle :- WriteUInt16LE(fixed, ib, offset, front);
    next := WriteUInt16LE(fixed, cch, middle, front + UInt16LE(ib));
  }

  /** The gap in the table, too, is filled: the next thing is the entry. */
  ghost predicate Ready(p: Login, slots: seq<Slot>, k: nat, fixed: array<byte>, c: Cursor)
    requires k <= |slots|
    reads fixed
  {
    && fixed.Length == FIXED && AllFit(slots, k)
    && var front := Fixed(p, slots, k) + if k == 9 then ClientId(p) else [];
    && Holds(fixed, front) && c.offset == |front|
    && c.dataOffset == Offset(slots, k) && Concat(c.buffers) == Data(slots, k)
  }

  lemma WrittenReady(p: Login, slots: seq<Slot>, k: nat, fixed: array<byte>, c: Cursor)
    requires k <= |slots| && k != 9 && Written(p, slots, k, fixed, c)
    ensures Ready(p, slots, k, fixed, c)
  {
    assert Fixed(p, slots, k) + [] == Fixed(p, slots, k);
  }

  /** An entry with its data, which is in no buffer or in some, and moves the next offset on. */
  method WriteEntry(fixed: array<byte>, c: Cursor, cch: nat, buffers: seq<seq<byte>>, step: nat, ghost p: Login, ghost slots: seq<Slot>, ghost k: nat)
    returns (r: Outcome<Cursor>)
    requires k < SLOTS == |slots| && Ready(p, slots, k, fixed, c) && slots[k] == Slot(Concat(buffers), cch, step)
    modifies fixed
    ensures r.Done? <==> FitsAt(slots, k)
    ensures r.Done? ==> Written(p, slots, k + 1, fixed, r.value)
  {
    hide UInt16LE, ClientId;
    ghost var front, gap := Fixed(p, slots, k), if k == 9 then ClientId(p) else [];
    var offset :- WritePair(fixed, c.offset, c.dataOffset, cch, front + gap);
    WrittenNext(p, slots, k, c, front, gap, buffers);
    r := Done(Cursor(offset, c.dataOffset + step, c.buffers + buffers));
  }

  method WriteText(fixed: array<byte>, c: Cursor, text: seq<CodeUnit>, ghost p: Login, ghost slots: seq<Slot>, ghost k: nat)
    returns (r: Outcome<Cursor>)
    requires k < SLOTS == |slots| && k != 9 && slots[k] == Text(text) && Written(p, slots, k, fixed, c)
    modifies fixed
    ensures r.Done? <==> FitsAt(slots, k)
    ensures r.Done? ==> Written(p, slots, k + 1, fixed, r.value)
  {
    hide Written, Ready, FitsAt;
    WrittenReady(p, slots, k, fixed, c);
    if text != [] {
      var buffer := Ucs2(text);
      ConcatOne([], buffer);
      r := WriteEntry(fixed, c, |buffer| / 2, [buffer], |buffer|, p, slots, k);
    } else {
      r := WriteEntry(fixed, c, 0, [], 0, p, slots, k);
    }
  }

  /** Without a host name the current offset is written where its length belongs. */
  method WriteHost(fixed: array<byte>, c: Cursor, hostname: seq<CodeUnit>, ghost p: Login, ghost slots: seq<Slot>)
    returns (r: Outcome<Cursor>)
    requires |slots| == SLOTS && slots[0] == Host(hostname) && Written(p, slots, 0, fixed, c)
    modifies fixed
    ensures r.Done? <==> FitsAt(slots, 0)
    ensures r.Done? ==> Written(p, slots, 1, fixed, r.value)
  {
    assert c.dataOffset == FIXED;
    hide Written, Ready, FitsAt;
    WrittenReady(p, slots, 0, fixed, c);
    if hostname != [] {
      var buffer := Ucs2(hostname);
      ConcatOne([], buffer);
      r := WriteEntry(fixed, c, |buffer| / 2, [buffer], |buffer|, p, slots, 0);
    } else {
      r := WriteEntry(fixed, c, c.dataOffset, [], 0, p, slots, 0);
    }
  }

  method ScrambleText(text: seq<byte>) returns (s: seq<byte>)
    ensures s == Scrambled(text)
  {
    var buffer := new byte[|text|](i requires 0 <= i < |text| => text[i]);
    assert buffer[..] == text;
    ScramblePassword(buffer);
    return buffer[..];
  }

  method WritePassword(fixed: array<byte>, c: Cursor, password: seq<CodeUnit>, ghost p: Login, ghost slots: seq<Slot>, ghost k: nat)
    returns (r: Outcome<Cursor>)
    requires k < SLOTS == |slots| && k != 9 && slots[k] == Secret(password) && Written(p, slots, k, fixed, c)
    modifies fixed
    ensures r.Done? <==> FitsAt(slots, k)
    ensures r.Done? ==> Written(p, slots, k + 1, fixed, r.value)
  {
    hide Written, Ready, FitsAt;
    WrittenReady(p, slots, k, fixed, c);
    if password != [] {
      var buffer := ScrambleText(Ucs2(password));
      ConcatOne([], buffer);
      r := WriteEntry(fixed, c, |buffer| / 2, [buffer], |buffer|, p, slots, k);
    } else {
      assert Scrambled([]) == [];
      r := WriteEntry(fixed, c, 0, [], 0, p, slots, k);
    }
  }

  method BuildPointer(n: UInt32) returns (s: seq<byte>)
    ensures s == UInt32LE(n)
  {
    var buffer := Alloc(4);
    var _ := WriteUInt32LE(buffer, n, 0, []);
    assert buffer[..] == [] + UInt32LE(n) + Zeros(0);
    return buffer[..];
  }

  method WriteExtension(fixed: array<byte>, c: Cursor, extensions: seq<byte>, ghost p: Login, ghost slots: seq<Slot>, ghost k: nat)
    returns (r: Outcome<Cursor>)
    requires k < SLOTS == |slots| && k != 9 && Written(p, slots, k, fixed, c)
    requires slots[k] == Slot(UInt32LE((Offset(slots, k) + 4) % 0x1_0000_0000) + extensions, 4, 4 + |extensions|)
    modifies fixed
    ensures r.Done? <==> FitsAt(slots, k)
    ensures r.Done? ==> Written(p, slots, k + 1, fixed, r.value)
  {
    assert c.dataOffset == Offset(slots, k);
    if c.dataOffset >= 0x1_0000 {
      return RangeError;  // as writing the offset would find
    }
    hide UInt32LE, Written, Ready, FitsAt;
    WrittenReady(p, slots, k, fixed, c);
    var pointer := BuildPointer(c.dataOffset + 4);
    ConcatOne([], pointer);
    ConcatOne([pointer], extensions);
    r := WriteEntry(fixed, c, 4, [pointer] + [extensions], 4 + |extensions|, p, slots, k);
  }

  /** The client id, and the SSPI data, whose offset the entries behind it do not step over. */
  method WriteClientIdAndSspi(fixed: array<byte>, c: Cursor, clientId: Option<seq<byte>>, sspi: Option<seq<byte>>,
                              ghost p: Login, ghost slots: seq<Slot>)
    returns (r: Outcome<Cursor>)
    requires |slots| == SLOTS && clientId == p.clientId && slots[9] == Sspi(sspi) && Written(p, slots, 9, fixed, c)
    modifies fixed
    ensures r.Done? <==> FitsAt(slots, 9)
    ensures r.Done? ==> Written(p, slots, 10, fixed, r.value)
  {
    ghost var front := Fixed(p, slots, 9);
    if clientId.Some? {
      var id := clientId.value;
      var _ := Put(fixed, if |id| < 6 then id else id[..6], c.offset, front);
    }
    assert Holds(fixed, front + ClientId(p));
    var behind := c.(offset := c.offset + 6);
    assert Ready(p, slots, 9, fixed, behind);
    hide Written, Ready, FitsAt;
    if sspi.Some? {
      ConcatOne([], sspi.value);
      r := WriteEntry(fixed, behind, if |sspi.value| > 65535 then 65535 else |sspi.value|, [sspi.value], 0, p, slots, 9);
    } else {
      r := WriteEntry(fixed, behind, 0, [], 0, p, slots, 9);
    }
  }

  /** Everything in front of the table; the length is filled in at the end. */
  method WriteHeader(fixed: array<byte>, p: Login) returns (offset: nat)
    requires fixed.Length == FIXED && Holds(fixed, [])
    modifies fixed
    ensures offset == HEADER && Holds(fixed, Header(p))
  {
    hide UInt32LE, Holds, Flags1, Flags2, TypeFlags;
    ghost var front: seq<byte> := [];
    offset, front := WriteNumber(fixed, 0, 0, front);
    offset, front := WriteNumber(fixed, p.tdsVersion, offset, front);
    offset, front := WriteNumber(fixed, p.packetSize, offset, front);
    offset, front := WriteNumber(fixed, p.clientProgVer, offset, front);
    offset, front := WriteNumber(fixed, p.clientPid, offset, front);
    offset, front := WriteNumber(fixed, p.connectionId, offset, front);
    offset := WriteUInt8(fixed, Flags1(p), offset, front);
    front := front + [Flags1(p)];
    offset := WriteUInt8(fixed, Flags2(p), offset, front);
    front := front + [Flags2(p)];
    offset := WriteUInt8(fixed, TypeFlags(p), offset, front);
    front := front + [TypeFlags(p)];
    offset := WriteUInt8(fixed, FLAGS_3, offset, front);
    front := front + [FLAGS_3];
    offset, front := WriteNumber(fixed, Unsigned(p.clientTimeZone), offset, front);
    offset, front := WriteNumber(fixed, p.clientLcid, offset, front);
    assert front == Header(p);
  }

  method WriteNumber(fixed: array<byte>, value: UInt32, offset: nat, ghost front: seq<byte>) returns (next: nat, ghost front': seq<byte>)
    requires Holds(fixed, front) && offset == |front| && offset + 4 <= fixed.Length
    modifies fixed
    ensures next == offset + 4 && front' == front + UInt32LE(value) && Holds(fixed, front')
  {
    var r := WriteUInt32LE(fixed, value, offset, front);
    next, front' := r.value, front + UInt32LE(value);
  }

  /** The entries up to the feature extension. */
  method WriteFront(fixed: array<byte>, c: Cursor, extensions: seq<byte>, p: Login, ghost slots: seq<Slot>) returns (r: Outcome<Cursor>)
    requires TokenFits(p.fedAuth) && slots == Slots(p) && Written(p, slots, 0, fixed, c) && extensions == FeatureExt(Features(p))
    modifies fixed
    ensures r.Done? <==> AllFit(slots, 6)
    ensures r.Done? ==> Written(p, slots, 6, fixed, r.value)
  {
    hide Written, FitsAt, Text, Host, Secret, FeatureExt;
    var host :- WriteHost(fixed, c, p.hostname, p, slots);
    var user :- WriteText(fixed, host, p.userName, p, slots, 1);
    var password :- WritePassword(fixed, user, p.password, p, slots, 2);
    var app :- WriteText(fixed, password, p.appName, p, slots, 3);
    var server :- WriteText(fixed, app, p.serverName, p, slots, 4);
    ExtensionAt(p);
    r := WriteExtension(fixed, server, extensions, p, slots, 5);
  }

  lemma ExtensionAt(p: Login)
    requires TokenFits(p.fedAuth)
    ensures Extension(p) == Slot(UInt32LE((Offset(Slots(p), 5) + 4) % 0x1_0000_0000) + FeatureExt(Features(p)), 4, 4 + |FeatureExt(Features(p))|)
  {
    hide FeatureExt, UInt32LE, Scrambled, Ucs2, Features, Sspi;
    var slots := Slots(p);
    assert Offset(slots, 1) == FIXED + 2 * |p.hostname|;
    assert Offset(slots, 3) == Offset(slots, 1) + 2 * |p.userName| + 2 * |p.password|;
    assert Offset(slots, 5) == Offset(slots, 3) + 2 * |p.appName| + 2 * |p.serverName|;
  }

  method WriteBack(fixed: array<byte>, c: Cursor, p: Login, ghost slots: seq<Slot>) returns (r: Outcome<Cursor>)
    requires TokenFits(p.fedAuth) && slots == Slots(p) && Written(p, slots, 6, fixed, c)
    modifies fixed
    ensures r.Done? <==> AllFit(slots, SLOTS)
    ensures r.Done? ==> Written(p, slots, SLOTS, fixed, r.value)
  {
    assert AllFit(slots, 6);
    hide Written, FitsAt, Text, Sspi, FeatureExt;
    var library :- WriteText(fixed, c, p.libraryName, p, slots, 6);
    var language :- WriteText(fixed, library, p.language, p, slots, 7);
    var database :- WriteText(fixed, language, p.database, p, slots, 8);
    var sspi :- WriteClientIdAndSspi(fixed, database, p.clientId, p.sspi, p, slots);
    var attach :- WriteText(fixed, sspi, p.attachDbFile, p, slots, 10);
    r := WriteText(fixed, attach, p.changePassword, p, slots, 11);
  }

  /** The message, or an error if and only if some number does not fit. */
  method ToBuffer(p: Login) returns (r: Outcome<seq<byte>>)
    ensures r.Done? <==> Fits(p)
    ensures r.Done? ==> r.value == Encode(p)
  {
    hide UInt32LE, Slots, Encode, FeatureExt, Features, Header, FitsAt;
    // Nothing else depends on when the extension is built.
    var extensions :- BuildFeatureExt(p);
    ghost var slots := Slots(p);
    var fixed := Alloc(FIXED);
    var offset := WriteHeader(fixed, p);
    var front :- WriteFront(fixed, Cursor(offset, FIXED, []), extensions, p, slots);
    var back :- WriteBack(fixed, front, p, slots);
    var length :- WriteUInt32LE(fixed, SspiLong(p), back.offset, Fixed(p, slots, SLOTS));
    var size := fixed.Length + |Concat(back.buffers)|;
    if size >= 0x1_0000_0000 {
      return RangeError;
    }
    var data := fixed[..] + Concat(back.buffers);
    Assembled(p, fixed[..]);
    return Done(UInt32LE(size) + data[4..]);
  }

  lemma Assembled(p: Login, fixed: seq<byte>)
    requires Fits(p) && fixed == Fixed(p, Slots(p), SLOTS) + UInt32LE(SspiLong(p))
    ensures Encode(p) == UInt32LE(Total(p)) + (fixed + Data(Slots(p), SLOTS))[4..]
  {
    hide UInt32LE, Fixed, Slots, Data, Fits;
  }

  // When everything fits.

  function ExtensionSize(p: Login): nat {
    (match p.fedAuth
     case NoFedAuth => 0
     case Adal(_, _) => 7
     case SecurityToken(_, token) => 10 + 2 * |token|)
    + (if p.tdsVersion >= VERSION_7_4 then 6 else 0) + 1
  }

  /** Where the last entry points to. */
  function Extent(p: Login): nat {
    FIXED + 2 * (|p.hostname| + |p.userName| + |p.password| + |p.appName| + |p.serverName|) + 4 + ExtensionSize(p)
      + 2 * (|p.libraryName| + |p.language| + |p.database| + |p.attachDbFile|)
  }

  lemma FeatureSizes(p: Login)
    requires TokenFits(p.fedAuth)
    ensures |FeatureExt(Features(p))| == ExtensionSize(p)
  {
    hide UInt32LE, Ucs2;
    var fs := Features(p);
    assert FeatureExt(fs) == if fs == [] then [TERMINATOR] else FeatureBytes(fs[0]) + FeatureExt(fs[1..]);
    if |fs| > 0 {
      assert FeatureExt(fs[1..]) == if fs[1..] == [] then [TERMINATOR] else FeatureBytes(fs[1]) + FeatureExt(fs[1..][1..]);
    }
  }

  lemma SlotTexts(p: Login)
    requires TokenFits(p.fedAuth)
    ensures
      var t := Slots(p);
      && (p.hostname != [] ==> t[0] == Text(p.hostname)) && t[1] == Text(p.userName) && t[3] == Text(p.appName)
      && t[4] == Text(p.serverName) && t[6] == Text(p.libraryName) && t[7] == Text(p.language) && t[8] == Text(p.database)
      && t[10] == Text(p.attachDbFile) && t[11] == Text(p.changePassword)
  {
    hide Text, Host, Secret, Extension, Sspi;
    assert p.hostname != [] ==> Host(p.hostname) == Text(p.hostname) by {
      HostText(p.hostname);
    }
  }

  lemma HostText(s: seq<CodeUnit>)
    ensures s != [] ==> Host(s) == Text(s)
  {
  }

  lemma OtherSlots(p: Login)
    requires TokenFits(p.fedAuth)
    ensures Slots(p)[2] == Secret(p.password) && Slots(p)[5] == Extension(p) && Slots(p)[9] == Sspi(p.sspi)
  {
    hide Text, Host, Secret, Extension, Sspi;
  }

  lemma StepSizes(p: Login, k: nat)
    requires TokenFits(p.fedAuth) && k < SLOTS
    ensures var slot := Slots(p)[k]; slot.step == if k == 9 then 0 else |slot.data|
  {
    hide UInt32LE, FeatureExt, Features;
  }

  /** Offsets say where the data is, except that they do not step over the SSPI data. */
  lemma {:induction false} Located(p: Login, k: nat)
    requires TokenFits(p.fedAuth) && k <= SLOTS
    ensures FIXED + |Data(Slots(p), k)| == Offset(Slots(p), k) + if k <= 9 then 0 else |Sspi(p.sspi).data|
  {
    hide Slots;
    if k > 0 {
      Located(p, k - 1);
      StepSizes(p, k - 1);
      assert k == 10 ==> Slots(p)[9] == Sspi(p.sspi) by {
        OtherSlots(p);
      }
    }
  }

  lemma {:induction false} OffsetsGrow(slots: seq<Slot>, j: nat, k: nat)
    requires j < k <= |slots|
    ensures Offset(slots, j) + slots[j].step <= Offset(slots, k)
    decreases k
  {
    if j < k - 1 {
      OffsetsGrow(slots, j, k - 1);
    }
  }

  lemma ExtentIs(p: Login)
    requires TokenFits(p.fedAuth)
    ensures Offset(Slots(p), 11) == Extent(p)
  {
    hide UInt32LE, FeatureExt, Features, Ucs2, Scrambled;
    FeatureSizes(p);
    var slots := Slots(p);
    forall k | 0 <= k < SLOTS ensures Offset(slots, k + 1) == Offset(slots, k) + slots[k].step {
    }
    assert Offset(slots, 5) == FIXED + 2 * (|p.hostname| + |p.userName| + |p.password| + |p.appName| + |p.serverName|);
    assert Offset(slots, 9) == Offset(slots, 6) + 2 * (|p.libraryName| + |p.language| + |p.database|);
  }

  lemma CountFits(p: Login, k: nat)
    requires TokenFits(p.fedAuth) && k < 11 && Extent(p) < 0x1_0000
    ensures FitsAt(Slots(p), k)
  {
    SmallCounts(p, k);
    hide Slots, Offset, Extent;
    ExtentIs(p);
    OffsetsGrow(Slots(p), k, 11);
  }

  lemma SmallCounts(p: Login, k: nat)
    requires TokenFits(p.fedAuth) && k < 11
    ensures var slot := Slots(p)[k]; slot.count < 0x1_0000 || slot.count <= slot.step
  {
    hide UInt32LE, FeatureExt, Features, Ucs2, Scrambled;
  }

  /** When the message can be written, by sizes alone. */
  lemma FitsExactly(p: Login)
    ensures Fits(p) <==>
      && TokenFits(p.fedAuth) && Extent(p) < 0x1_0000 && |p.changePassword| < 0x1_0000
      && Extent(p) + 2 * |p.changePassword| + |Sspi(p.sspi).data| < 0x1_0000_0000
  {
    if TokenFits(p.fedAuth) {
      ExtentIs(p);
      Located(p, SLOTS);
      var slots := Slots(p);
      assert Total(p) == Extent(p) + 2 * |p.changePassword| + |Sspi(p.sspi).data|;
      assert SspiLong(p) <= |Sspi(p.sspi).data|;
      assert FitsAt(slots, 11) <==> Extent(p) < 0x1_0000 && |p.changePassword| < 0x1_0000;
      if Extent(p) < 0x1_0000 {
        forall k | 0 <= k < 11 ensures FitsAt(slots, k) {
          CountFits(p, k);
        }
      }
    }
  }

  // Reading the message.

  /** What a server learns from the message. */
  datatype Reading = Reading(
    tdsVersion: nat, packetSize: nat, clientProgVer: nat, clientPid: nat, connectionId: nat,
    clientTimeZone: Int32, clientLcid: nat, readOnlyIntent: bool, initDbFatal: bool, integratedSecurity: bool, features: seq<Feature>,
    hostname: seq<CodeUnit>, userName: seq<CodeUnit>, password: seq<CodeUnit>, appName: seq<CodeUnit>,
    serverName: seq<CodeUnit>, libraryName: seq<CodeUnit>, language: seq<CodeUnit>, database: seq<CodeUnit>,
    clientId: seq<byte>, sspi: seq<byte>, attachDbFile: seq<CodeUnit>, changePassword: seq<CodeUnit>)

  /** The bytes that a table entry points to, given how many there are. */
  function ReadData(s: seq<byte>, k: nat, length: nat): Option<seq<byte>>
    requires k < SLOTS && FIXED <= |s|
  {
    var start := ReadUInt16LE(s, EntryAt(k));
    if start + length <= |s| then Some(s[start..start + length]) else None
  }

  function ReadCount(s: seq<byte>, k: nat): (n: nat)
    requires k < SLOTS && FIXED <= |s|
    ensures n < 0x1_0000
  {
    ReadUInt16LE(s, EntryAt(k) + 2)
  }

  function ReadText(s: seq<byte>, k: nat): Option<seq<CodeUnit>>
    requires k < SLOTS && FIXED <= |s|
  {
    var data :- ReadData(s, k, 2 * ReadCount(s, k));
    Some(ReadUcs2(data, 0, ReadCount(s, k)))
  }

  function ReadPassword(s: seq<byte>, k: nat): Option<seq<CodeUnit>>
    requires k < SLOTS && FIXED <= |s|
  {
    var data :- ReadData(s, k, 2 * ReadCount(s, k));
    Some(ReadUcs2(Unscrambled(data), 0, ReadCount(s, k)))
  }

  /** The short length, unless it is the largest and a long one is there. */
  function SspiLength(s: seq<byte>): nat
    requires FIXED <= |s|
  {
    var long := ReadUInt32LE(s, 90);
    if ReadCount(s, 9) == 65535 && long != 0 then long else ReadCount(s, 9)
  }

  function ReadFeatures(s: seq<byte>): Option<(seq<Feature>, nat)>
    requires FIXED <= |s|
  {
    var pointer :- ReadData(s, 5, ReadCount(s, 5));
    if |pointer| != 4 then None else Walk(s, ReadUInt32LE(pointer, 0))
  }

  function ReadLogin(s: seq<byte>): Option<Reading> {
    if |s| < FIXED || ReadUInt32LE(s, 0) != |s| then None
    else
      var features :- ReadFeatures(s);
      var hostname :- ReadText(s, 0);
      var userName :- ReadText(s, 1);
      var password :- ReadPassword(s, 2);
      var appName :- ReadText(s, 3);
      var serverName :- ReadText(s, 4);
      var libraryName :- ReadText(s, 6);
      var language :- ReadText(s, 7);
      var database :- ReadText(s, 8);
      var sspi :- ReadData(s, 9, SspiLength(s));
      var attachDbFile :- ReadText(s, 10);
      var changePassword :- ReadPassword(s, 11);
      Some(Reading(
        ReadUInt32LE(s, 4), ReadUInt32LE(s, 8), ReadUInt32LE(s, 12), ReadUInt32LE(s, 16), ReadUInt32LE(s, 20),
        Signed(ReadUInt32LE(s, 28)), ReadUInt32LE(s, 32), Bit(s[26], 0x20), Bit(s[24], 0x40), Bit(s[25], 0x80), features.0,
        hostname, userName, password, appName, serverName, libraryName, language, database,
        s[72..78], sspi, attachDbFile, changePassword))
  }

  predicate Bit(b: byte, mask: bv8) {
    (b as bv8) & mask != 0
  }

  function Meaning(p: Login): Reading
    requires TokenFits(p.fedAuth)
  {
    Reading(
      p.tdsVersion, p.packetSize, p.clientProgVer, p.clientPid, p.connectionId,
      p.clientTimeZone, p.clientLcid, p.readOnlyIntent, p.initDbFatal, p.sspi.Some?, Features(p),
      p.hostname, p.userName, p.password, p.appName, p.serverName, p.libraryName, p.language, p.database,
      ClientId(p), Sspi(p.sspi).data, p.attachDbFile, p.changePassword)
  }

  /** With no host name, or with anything behind SSPI data, the table is not right. */
  predicate Readable(p: Login) {
    p.hostname != [] && (Sspi(p.sspi).data == [] || (p.attachDbFile == [] && p.changePassword == []))
  }

  // Where things are in the message.

  lemma {:induction false} PairInFixed(p: Login, slots: seq<Slot>, n: nat, k: nat)
    requires k < n <= |slots| && AllFit(slots, n)
    ensures EntryAt(k) + 4 <= |Fixed(p, slots, n)|
    ensures Fixed(p, slots, n)[EntryAt(k)..EntryAt(k) + 4] == Pair(slots, k)
  {
    hide Header, ClientId, Pair;
    var f, g := Fixed(p, slots, n), Fixed(p, slots, n - 1);
    if k < n - 1 {
      PairInFixed(p, slots, n - 1, k);
      assert f[..|g|] == g;
      assert f[EntryAt(k)..EntryAt(k) + 4] == g[EntryAt(k)..EntryAt(k) + 4];
    }
  }

  lemma {:induction false} DataInData(slots: seq<Slot>, n: nat, k: nat)
    requires k < n <= |slots|
    ensures |Data(slots, k)| + |slots[k].data| <= |Data(slots, n)|
    ensures Data(slots, n)[|Data(slots, k)|..|Data(slots, k)| + |slots[k].data|] == slots[k].data
  {
    if k < n - 1 {
      DataInData(slots, n - 1, k);
      var d := Data(slots, n - 1);
      assert Data(slots, n)[..|d|] == d;
    }
  }

  lemma FixedInMessage(p: Login, i: nat, j: nat)
    requires Fits(p) && 4 <= i <= j <= 90
    ensures Encode(p)[i..j] == Fixed(p, Slots(p), SLOTS)[i..j]
  {
    hide Slots, UInt32LE, Data, Fixed;
    var s, f := Encode(p), Fixed(p, Slots(p), SLOTS);
    assert s[4..90] == f[4..];
    assert s[i..j] == s[4..90][i - 4..j - 4] == f[4..][i - 4..j - 4];
  }

  lemma EntryInMessage(p: Login, k: nat)
    requires Fits(p) && k < SLOTS
    ensures |Encode(p)| >= FIXED
    ensures ReadUInt16LE(Encode(p), EntryAt(k)) == Offset(Slots(p), k)
    ensures ReadCount(Encode(p), k) == Slots(p)[k].count
  {
    hide Slots, UInt16LE, ReadUInt16LE, Fixed, Encode, Data, Offset;
    var s, slots, at := Encode(p), Slots(p), EntryAt(k);
    PairInFixed(p, slots, SLOTS, k);
    FixedInMessage(p, at, at + 4);
    var pair := Pair(slots, k);
    assert s[at..at + 4] == pair;
    var ib, cch := UInt16LE(Offset(slots, k)), UInt16LE(slots[k].count);
    assert s[at..at + 2] == pair[0..2] == ib == ib[0..2] && s[at + 2..at + 4] == pair[2..4] == cch == cch[0..2];
    ReadUInt16LEAt(s, at, ib, 0);
    ReadUInt16LEAt(s, at + 2, cch, 0);
  }

  lemma {:induction false} DataInMessage(p: Login, k: nat)
    requires Fits(p) && k < SLOTS
    ensures
      var start, data := FIXED + |Data(Slots(p), k)|, Slots(p)[k].data;
      start + |data| <= |Encode(p)| && Encode(p)[start..start + |data|] == data
  {
    hide Slots, UInt32LE, Fixed, Data;
    var s, slots := Encode(p), Slots(p);
    DataInData(slots, SLOTS, k);
    var all, at, data := Data(slots, SLOTS), |Data(slots, k)|, slots[k].data;
    assert s[FIXED..] == all;
    assert s[FIXED + at..FIXED + at + |data|] == s[FIXED..][at..at + |data|];
  }

  /** Following the offset of an entry leads to its data, unless the offset is behind the SSPI data. */
  lemma FollowOffset(p: Login, k: nat)
    requires Fits(p) && k < SLOTS && (k <= 9 || Sspi(p.sspi).data == [])
    ensures |Encode(p)| >= FIXED && ReadData(Encode(p), k, |Slots(p)[k].data|) == Some(Slots(p)[k].data)
  {
    hide Slots, Encode, Data, Sspi;
    EntryInMessage(p, k);
    DataInMessage(p, k);
    Located(p, k);
  }

  lemma FollowText(p: Login, k: nat, text: seq<CodeUnit>)
    requires Fits(p) && Readable(p) && k < SLOTS && Slots(p)[k] == Text(text)
    requires k in {10, 11} ==> text == p.attachDbFile || text == p.changePassword
    requires k != 9
    ensures |Encode(p)| >= FIXED && ReadText(Encode(p), k) == Some(text)
  {
    hide Slots, Encode, Sspi, Ucs2, ReadUcs2;
    EntryInMessage(p, k);
    if k <= 9 || Sspi(p.sspi).data == [] {
      FollowOffset(p, k);
      Ucs2RoundTrip(text);
    } else {
      assert text == [];
      Ucs2RoundTrip(text);
      Located(p, k);
      Behind(p, k);
    }
  }

  lemma Behind(p: Login, k: nat)
    requires Fits(p) && k <= SLOTS
    ensures Offset(Slots(p), k) <= |Encode(p)|
  {
    hide Slots, Encode, Sspi;
    Located(p, k);
    if k < SLOTS {
      DataInData(Slots(p), SLOTS, k);
    }
  }

  lemma FollowPassword(p: Login)
    requires Fits(p)
    ensures |Encode(p)| >= FIXED && ReadPassword(Encode(p), 2) == Some(p.password)
  {
    hide Encode, Ucs2, ReadUcs2, Scrambled, Unscrambled;
    EntryInMessage(p, 2);
    FollowOffset(p, 2);
    UnscrambleScrambled(Ucs2(p.password));
    Ucs2RoundTrip(p.password);
  }

  lemma FollowSspi(p: Login)
    requires Fits(p)
    ensures |Encode(p)| >= FIXED && SspiLength(Encode(p)) == |Sspi(p.sspi).data|
    ensures ReadData(Encode(p), 9, SspiLength(Encode(p))) == Some(Sspi(p.sspi).data)
  {
    OtherSlots(p);
    hide Slots, UInt32LE, ReadUInt32LE, Fixed, Data;
    EntryInMessage(p, 9);
    FollowOffset(p, 9);
    var s, long := Encode(p), UInt32LE(SspiLong(p));
    assert s[90..94] == long == long[0..4];
    ReadUInt32LEAt(s, 90, long, 0);
  }

  lemma SplitAt(s: seq<byte>, at: nat, a: seq<byte>, b: seq<byte>)
    requires at + |a| + |b| <= |s| && s[at..at + |a| + |b|] == a + b
    ensures s[at..at + |a|] == a && s[at + |a|..at + |a| + |b|] == b
  {
    var u := s[at..at + |a| + |b|];
    assert s[at..at + |a|] == u[..|a|] == a;
    assert s[at + |a|..at + |a| + |b|] == u[|a|..] == b;
  }

  /** The pointer leads past itself to the feature extension, which ends where the next data begins. */
  lemma FollowFeatures(p: Login)
    requires Fits(p)
    ensures |Encode(p)| >= FIXED && ReadFeatures(Encode(p)) == Some((Features(p), Offset(Slots(p), 6)))
  {
    hide *;
    ExtensionData(p);
    PointerInMessage(p);
    ExtensionWalked(p);
  }

  lemma PointerInMessage(p: Login)
    requires Fits(p)
    ensures
      var s, at := Encode(p), Offset(Slots(p), 5) + 4;
      && |s| >= FIXED && at <= 0x1_0003 && ReadCount(s, 5) == 4
      && ReadData(s, 5, 4) == Some(UInt32LE(at)) && ReadFeatures(s) == Walk(s, at)
  {
    hide Slots, Encode, UInt32LE, FeatureExt, Features, Offset, Fits, ReadUInt16LE, ReadData, ReadFeatures;
    ExtensionData(p);
    EntryInMessage(p, 5);
    var s, start, ext := Encode(p), Offset(Slots(p), 5), FeatureExt(Features(p));
    SplitAt(s, start, UInt32LE(start + 4), ext);
    ReadFour(s, 5, start);
    WalkFrom(s, UInt32LE(start + 4), start + 4);
  }

  lemma ExtensionWalked(p: Login)
    requires Fits(p) && TokenFits(p.fedAuth)
    ensures Walk(Encode(p), Offset(Slots(p), 5) + 4) == Some((Features(p), Offset(Slots(p), 6)))
  {
    hide Slots, Encode, UInt32LE, FeatureExt, Features, Offset, Fits, Walk, Writable;
    ExtensionData(p);
    var s, start, ext := Encode(p), Offset(Slots(p), 5), FeatureExt(Features(p));
    SplitAt(s, start, UInt32LE(start + 4), ext);
    WalkAt(s, start + 4, Features(p));
  }

  lemma WalkAt(s: seq<byte>, at: nat, fs: seq<Feature>)
    requires Writable(fs) && at + |FeatureExt(fs)| <= |s| && s[at..at + |FeatureExt(fs)|] == FeatureExt(fs)
    ensures Walk(s, at) == Some((fs, at + |FeatureExt(fs)|))
  {
    hide *;
    var pre, post := s[..at], s[at + |FeatureExt(fs)|..];
    assert s == pre + FeatureExt(fs) + post;
    WalkExt(pre, fs, post);
  }

  lemma WalkFrom(s: seq<byte>, pointer: seq<byte>, at: nat)
    requires |s| >= FIXED && ReadCount(s, 5) == 4 && ReadData(s, 5, 4) == Some(pointer) && at < 0x1_0000_0000 && pointer == UInt32LE(at)
    ensures ReadFeatures(s) == Walk(s, at)
  {
  }

  lemma ReadFour(s: seq<byte>, k: nat, start: nat)
    requires k < SLOTS && FIXED <= |s| && ReadUInt16LE(s, EntryAt(k)) == start && start + 4 <= |s|
    ensures ReadData(s, k, 4) == Some(s[start..start + 4])
  {
  }

  /** The pointer and the extension, where the entry says. */
  lemma ExtensionData(p: Login)
    requires Fits(p)
    ensures
      var s, start, ext := Encode(p), Offset(Slots(p), 5), FeatureExt(Features(p));
      && TokenFits(p.fedAuth) && start < 0x1_0000 && start + 4 + |ext| == Offset(Slots(p), 6) <= |s|
      && Slots(p)[5].count == 4
      && s[start..start + 4 + |ext|] == UInt32LE(start + 4) + ext
  {
    assert FitsAt(Slots(p), 5);
    assert Offset(Slots(p), 5) < 0x1_0000 && Offset(Slots(p), 6) == Offset(Slots(p), 5) + Slots(p)[5].step;
    hide Slots, Encode, Data, UInt32LE, FeatureExt, Features, Offset, Fits, AllFit, FitsAt, Sspi;
    ExtensionSlot(p);
    DataInMessage(p, 5);
    Located(p, 5);
  }

  lemma ExtensionSlot(p: Login)
    requires TokenFits(p.fedAuth) && Offset(Slots(p), 5) < 0x1_0000
    ensures
      var ext := FeatureExt(Features(p));
      Slots(p)[5] == Slot(UInt32LE(Offset(Slots(p), 5) + 4) + ext, 4, 4 + |ext|)
  {
    hide *;
    ExtensionAt(p);
    OtherSlots(p);
  }

  lemma {:induction false} HeaderInFixed(p: Login, slots: seq<Slot>, n: nat)
    requires n <= |slots| && AllFit(slots, n)
    ensures Fixed(p, slots, n)[..HEADER] == Header(p)
    ensures n >= 10 ==> Fixed(p, slots, n)[72..78] == ClientId(p)
  {
    hide Header, ClientId, Pair;
    if n > 0 {
      HeaderInFixed(p, slots, n - 1);
      var g := Fixed(p, slots, n - 1);
      assert Fixed(p, slots, n)[..|g|] == g;
      assert Fixed(p, slots, n)[..HEADER] == g[..HEADER];
      if n > 10 {
        assert Fixed(p, slots, n)[72..78] == g[72..78];
      }
    }
  }

  lemma HeaderInMessage(p: Login, i: nat, j: nat)
    requires Fits(p) && 4 <= i <= j <= HEADER
    ensures Encode(p)[i..j] == Header(p)[i..j]
  {
    hide Slots, Encode, Data, Fixed, Header;
    var f := Fixed(p, Slots(p), SLOTS);
    HeaderInFixed(p, Slots(p), SLOTS);
    FixedInMessage(p, i, j);
    InPrefix(f, HEADER, i, j);
  }

  lemma InPrefix(s: seq<byte>, n: nat, i: nat, j: nat)
    requires i <= j <= n <= |s|
    ensures s[i..j] == s[..n][i..j]
  {
  }

  lemma NumberInMessage(p: Login, at: nat, n: UInt32)
    requires Fits(p) && 4 <= at && at + 4 <= HEADER && Header(p)[at..at + 4] == UInt32LE(n)
    ensures ReadUInt32LE(Encode(p), at) == n
  {
    hide Slots, Encode, Data, Fixed, Header, UInt32LE, ReadUInt32LE;
    HeaderInMessage(p, at, at + 4);
    assert UInt32LE(n) == UInt32LE(n)[0..4];
    ReadUInt32LEAt(Encode(p), at, UInt32LE(n), 0);
  }

  lemma HeaderParts(p: Login)
    ensures
      var h := Header(p);
      && h[4..8] == UInt32LE(p.tdsVersion) && h[8..12] == UInt32LE(p.packetSize) && h[12..16] == UInt32LE(p.clientProgVer)
      && h[16..20] == UInt32LE(p.clientPid) && h[20..24] == UInt32LE(p.connectionId)
      && h[24..28] == [Flags1(p), Flags2(p), TypeFlags(p), FLAGS_3]
      && h[28..32] == UInt32LE(Unsigned(p.clientTimeZone)) && h[32..36] == UInt32LE(p.clientLcid)
  {
    hide UInt32LE, Flags1, Flags2, TypeFlags;
  }

  lemma NumbersInMessage(p: Login)
    requires Fits(p)
    ensures
      var s := Encode(p);
      && |s| >= FIXED && ReadUInt32LE(s, 0) == |s|
      && ReadUInt32LE(s, 4) == p.tdsVersion && ReadUInt32LE(s, 8) == p.packetSize && ReadUInt32LE(s, 12) == p.clientProgVer
      && ReadUInt32LE(s, 16) == p.clientPid && ReadUInt32LE(s, 20) == p.connectionId
      && Signed(ReadUInt32LE(s, 28)) == p.clientTimeZone && ReadUInt32LE(s, 32) == p.clientLcid
  {
    var s, size := Encode(p), UInt32LE(Total(p));
    assert s[0..4] == size == size[0..4];
    hide Encode, Header, UInt32LE, ReadUInt32LE, Slots, Data, Fixed;
    ReadUInt32LEAt(s, 0, size, 0);
    HeaderParts(p);
    NumberInMessage(p, 4, p.tdsVersion);
    NumberInMessage(p, 8, p.packetSize);
    NumberInMessage(p, 12, p.clientProgVer);
    NumberInMessage(p, 16, p.clientPid);
    NumberInMessage(p, 20, p.connectionId);
    NumberInMessage(p, 28, Unsigned(p.clientTimeZone));
    NumberInMessage(p, 32, p.clientLcid);
  }

  lemma FlagsInMessage(p: Login)
    requires Fits(p)
    ensures
      var s := Encode(p);
      && |s| >= FIXED && Bit(s[26], 0x20) == p.readOnlyIntent && Bit(s[24], 0x40) == p.initDbFatal && Bit(s[25], 0x80) == p.sspi.Some?
      && s[72..78] == ClientId(p)
  {
    HeaderParts(p);
    hide Encode, Header, UInt32LE, Slots, Data, Fixed, ClientId;
    var s := Encode(p);
    HeaderInMessage(p, 24, 28);
    var flags := s[24..28];
    assert s[24] == flags[0] && s[25] == flags[1] && s[26] == flags[2];
    HeaderInFixed(p, Slots(p), SLOTS);
    FixedInMessage(p, 72, 78);
  }

  /** What un-scrambling makes of a password that was not scrambled. */
  function Garbled(t: seq<CodeUnit>): (r: seq<CodeUnit>)
    ensures |r| == |t|
  {
    ReadUcs2(Unscrambled(Ucs2(t)), 0, |t|)
  }

  lemma {:induction false} NeverItself(t: seq<CodeUnit>)
    ensures Garbled(t) == t <==> t == []
  {
    if t != [] {
      var s := Ucs2(t);
      var u := Unscrambled(s);
      Ucs2Exact(u, 0, |t|);
      assert u[0..|u|] == u;
      NoFixedByte(s[0]);
      assert u[0] != s[0];
    }
  }

  lemma {:induction false} FollowNewPassword(p: Login)
    requires Fits(p) && Readable(p)
    ensures |Encode(p)| >= FIXED && ReadPassword(Encode(p), 11) == Some(Garbled(p.changePassword))
  {
    SlotTexts(p);
    hide Slots, Encode, Sspi, Ucs2, ReadUcs2, Unscrambled;
    EntryInMessage(p, 11);
    if Sspi(p.sspi).data == [] {
      FollowOffset(p, 11);
    } else {
      assert p.changePassword == [];
      Located(p, 11);
      Behind(p, 11);
      var nothing: seq<byte> := [];
      assert Ucs2([]) == nothing && Unscrambled(nothing) == nothing;
    }
  }

  /** A reader that follows the table gets everything as it was put in, but un-scrambles a new password that was not scrambled. */
  lemma {:induction false} ReadBack(p: Login)
    requires Fits(p) && Readable(p)
    ensures ReadLogin(Encode(p)) == Some(Meaning(p).(changePassword := Garbled(p.changePassword)))
  {
    SlotTexts(p);
    hide Encode, Slots, Text, ReadText, ReadPassword, ReadFeatures, SspiLength, ReadData, ReadUInt32LE, ClientId, Fits, Bit, Garbled;
    FollowFeatures(p);
    FollowText(p, 0, p.hostname);
    FollowText(p, 1, p.userName);
    FollowPassword(p);
    FollowText(p, 3, p.appName);
    FollowText(p, 4, p.serverName);
    FollowText(p, 6, p.libraryName);
    FollowText(p, 7, p.language);
    FollowText(p, 8, p.database);
    FollowSspi(p);
    FollowText(p, 10, p.attachDbFile);
    FollowNewPassword(p);
    NumbersInMessage(p);
    FlagsInMessage(p);
  }

  /** Everything is recovered if and only if there is no new password. */
  lemma {:induction false} ReadBackExactly(p: Login)
    requires Fits(p) && Readable(p)
    ensures ReadLogin(Encode(p)) == Some(Meaning(p)) <==> p.changePassword == []
  {
    hide Fits, Encode, ReadLogin, Readable, Garbled;
    ReadBack(p);
    NeverItself(p.changePassword);
  }

  // Exactly when the table is right.

  /** The regions that a message says it has: one for each table entry, and the feature extension. */
  function RegionStart(s: seq<byte>, k: nat): nat
    requires k <= SLOTS && FIXED <= |s| && ReadFeatures(s).Some?
  {
    if k < SLOTS then ReadUInt16LE(s, EntryAt(k)) else ReadUInt32LE(ReadData(s, 5, 4).value, 0)
  }

  function RegionEnd(s: seq<byte>, k: nat): nat
    requires k <= SLOTS && FIXED <= |s| && ReadFeatures(s).Some?
  {
    if k == SLOTS then ReadFeatures(s).value.1
    else RegionStart(s, k) + if k == 5 then ReadCount(s, k) else if k == 9 then SspiLength(s) else 2 * ReadCount(s, k)
  }

  predicate Apart(s: seq<byte>, j: nat, k: nat)
    requires j <= SLOTS && k <= SLOTS && FIXED <= |s| && ReadFeatures(s).Some?
  {
    || RegionEnd(s, j) <= RegionStart(s, k) || RegionEnd(s, k) <= RegionStart(s, j)
    || RegionStart(s, j) == RegionEnd(s, j) || RegionStart(s, k) == RegionEnd(s, k)
  }

  /** The length is right, and the regions lie within the message, behind the fixed part, and do not overlap. */
  predicate Sound(s: seq<byte>) {
    && FIXED <= |s| == ReadUInt32LE(s, 0) && ReadFeatures(s).Some?
    && (forall k | 0 <= k <= SLOTS :: FIXED <= RegionStart(s, k) <= RegionEnd(s, k) <= |s|)
    && (forall j, k | 0 <= j < k <= SLOTS :: Apart(s, j, k))
  }

  /** The regions of a message, in terms of the offsets that were written into it. */
  lemma {:induction false} RegionStartIs(p: Login, k: nat)
    requires Fits(p) && k <= SLOTS
    ensures |Encode(p)| >= FIXED && ReadFeatures(Encode(p)).Some?
    ensures RegionStart(Encode(p), k) == if k < SLOTS then Offset(Slots(p), k) else Offset(Slots(p), 5) + 4
  {
    assert Offset(Slots(p), 5) + 4 < 0x1_0000_0000 by {
      assert FitsAt(Slots(p), 5);
    }
    FollowFeatures(p);
    hide Slots, Encode, ReadUInt16LE, ReadFeatures, ReadCount, Offset, Fits, ReadUInt32LE;
    if k < SLOTS {
      hide ReadData, UInt32LE;
      EntryInMessage(p, k);
    } else {
      PointerInMessage(p);
      hide ReadData;
    }
  }

  lemma {:induction false} RegionIs(p: Login, k: nat)
    requires Fits(p) && k <= SLOTS
    ensures |Encode(p)| >= FIXED && ReadFeatures(Encode(p)).Some?
    ensures
      var slots := Slots(p);
      && RegionStart(Encode(p), k) == (if k < SLOTS then Offset(slots, k) else Offset(slots, 5) + 4)
      && RegionEnd(Encode(p), k) ==
         (if k == SLOTS then Offset(slots, 6) else if k == 5 then Offset(slots, 5) + 4
          else if k == 9 then Offset(slots, 9) + |Sspi(p.sspi).data| else Offset(slots, k) + 2 * slots[k].count)
  {
    assert Slots(p)[5].count == 4;
    RegionStartIs(p, k);
    FollowFeatures(p);
    hide Slots, Encode, ReadFeatures, ReadCount, Sspi, SspiLength, Offset, Fits, ReadData, RegionStart;
    if k == 9 {
      FollowSspi(p);
    } else if k < SLOTS {
      EntryInMessage(p, k);
    }
  }

  /** In a readable message, every region but the SSPI data ends where the next offset says, or before. */
  lemma RegionFits(p: Login, k: nat)
    requires Fits(p) && Readable(p) && k < SLOTS && k != 9
    ensures |Encode(p)| >= FIXED && ReadFeatures(Encode(p)).Some?
    ensures FIXED <= RegionStart(Encode(p), k) == Offset(Slots(p), k)
    ensures RegionStart(Encode(p), k) <= RegionEnd(Encode(p), k) <= Offset(Slots(p), k + 1) <= |Encode(p)|
  {
    SlotTexts(p);
    StepSizes(p, k);
    OtherSlots(p);
    hide Slots, Encode, RegionStart, RegionEnd, Features, FeatureExt, UInt32LE, Fits, Readable, Scrambled, ReadFeatures;
    RegionIs(p, k);
    Located(p, k);
    Behind(p, k + 1);
  }

  lemma SspiRegion(p: Login)
    requires Fits(p)
    ensures |Encode(p)| >= FIXED && ReadFeatures(Encode(p)).Some?
    ensures RegionStart(Encode(p), 9) == Offset(Slots(p), 9)
    ensures FIXED <= RegionStart(Encode(p), 9) <= RegionEnd(Encode(p), 9) == Offset(Slots(p), 9) + |Sspi(p.sspi).data| <= |Encode(p)|
  {
    assert TokenFits(p.fedAuth);
    hide Slots, Encode, RegionStart, RegionEnd, Features, FeatureExt, UInt32LE, Fits, ReadFeatures, Sspi;
    RegionIs(p, 9);
    Located(p, 9);
    OtherSlots(p);
    DataInMessage(p, 9);
  }

  lemma FeatureRegion(p: Login)
    requires Fits(p)
    ensures |Encode(p)| >= FIXED && ReadFeatures(Encode(p)).Some?
    ensures FIXED <= RegionStart(Encode(p), SLOTS) == Offset(Slots(p), 5) + 4 == RegionEnd(Encode(p), 5)
    ensures RegionStart(Encode(p), SLOTS) <= RegionEnd(Encode(p), SLOTS) == Offset(Slots(p), 6) <= |Encode(p)|
  {
    assert TokenFits(p.fedAuth);
    hide Slots, Encode, RegionStart, RegionEnd, Features, FeatureExt, UInt32LE, Fits, ReadFeatures, Offset;
    RegionIs(p, 5);
    RegionIs(p, SLOTS);
    ExtensionData(p);
    Located(p, 5);
    Behind(p, 6);
  }

  lemma OffsetsOrdered(slots: seq<Slot>, j: nat, k: nat)
    requires j <= k <= |slots|
    ensures Offset(slots, j) <= Offset(slots, k)
  {
    if j < k {
      OffsetsGrow(slots, j, k);
    }
  }

  lemma BehindSspi(p: Login, k: nat)
    requires Fits(p) && Readable(p) && k in {10, 11}
    ensures |Encode(p)| >= FIXED && ReadFeatures(Encode(p)).Some?
    ensures Sspi(p.sspi).data == [] || RegionStart(Encode(p), k) == RegionEnd(Encode(p), k)
  {
    SlotTexts(p);
    hide Slots, Encode, RegionStart, RegionEnd, Fits, Offset, ReadFeatures, Sspi;
    RegionIs(p, k);
  }

  lemma ReadableApart(p: Login, j: nat, k: nat)
    requires Fits(p) && Readable(p) && j < k <= SLOTS
    ensures |Encode(p)| >= FIXED && ReadFeatures(Encode(p)).Some? && Apart(Encode(p), j, k)
  {
    assert TokenFits(p.fedAuth);
    hide Slots, Encode, RegionStart, RegionEnd, Fits, Offset, ReadFeatures, Sspi;
    FeatureRegion(p);
    SspiRegion(p);
    var slots := Slots(p);
    if j != 9 {
      RegionFits(p, j);
    }
    if k != 9 && k != SLOTS {
      RegionFits(p, k);
    }
    if j == 9 && k < SLOTS {
      BehindSspi(p, k);
    } else if k < SLOTS {
      OffsetsOrdered(slots, j + 1, k);
    } else if j < 5 {
      OffsetsOrdered(slots, j + 1, 5);
    } else if j > 5 {
      OffsetsOrdered(slots, 6, j);
    }
  }

  lemma ReadableSound(p: Login)
    requires Fits(p) && Readable(p)
    ensures Sound(Encode(p))
  {
    hide Encode, Slots, RegionStart, RegionEnd, Fits, Readable, ReadFeatures, Offset, Apart;
    NumbersInMessage(p);
    FeatureRegion(p);
    SspiRegion(p);
    var s := Encode(p);
    forall k | 0 <= k <= SLOTS ensures FIXED <= RegionStart(s, k) <= RegionEnd(s, k) <= |s| {
      if k != 9 && k != SLOTS {
        RegionFits(p, k);
      }
    }
    forall j, k | 0 <= j < k <= SLOTS ensures Apart(s, j, k) {
      ReadableApart(p, j, k);
    }
  }

  /** Without a host name its entry covers 188 bytes, and with them the first data there is. */
  lemma NoHostname(p: Login)
    requires Fits(p) && p.hostname == []
    ensures !Sound(Encode(p))
  {
    var s, slots := Encode(p), Slots(p);
    assert slots[0].count == FIXED && slots[5].count == 4 && Offset(slots, 0) == FIXED;
    SlotTexts(p);
    StepSizes(p, 2);
    FirstData(p);
    var k :| 1 <= k <= 5 && Offset(slots, k) == FIXED && slots[k].count > 0;
    hide Encode, Slots, RegionStart, RegionEnd, Fits, ReadFeatures, Offset;
    RegionIs(p, 0);
    RegionIs(p, k);
    assert !Apart(s, 0, k);
  }

  lemma FirstData(p: Login)
    requires TokenFits(p.fedAuth) && p.hostname == []
    ensures exists k :: 1 <= k <= 5 && Offset(Slots(p), k) == FIXED && Slots(p)[k].count > 0
  {
    hide UInt32LE, FeatureExt, Features, Ucs2, Scrambled;
    var slots := Slots(p);
    forall k | 0 <= k < SLOTS ensures Offset(slots, k + 1) == Offset(slots, k) + slots[k].step {
    }
    assert slots[5].count == 4;
    if p.userName != [] {
      assert Offset(slots, 1) == FIXED && slots[1].count > 0;
    } else if p.password != [] {
      assert Offset(slots, 2) == FIXED && slots[2].count > 0;
    } else if p.appName != [] {
      assert Offset(slots, 3) == FIXED && slots[3].count > 0;
    } else if p.serverName != [] {
      assert Offset(slots, 4) == FIXED && slots[4].count > 0;
    } else {
      assert Offset(slots, 5) == FIXED && slots[5].count > 0;
    }
  }

  /** Whatever comes behind the SSPI data is said to be where that is. */
  lemma NothingBehindSspi(p: Login)
    requires Fits(p) && Sspi(p.sspi).data != [] && (p.attachDbFile != [] || p.changePassword != [])
    ensures !Sound(Encode(p))
  {
    var s, slots := Encode(p), Slots(p);
    SlotTexts(p);
    OtherSlots(p);
    assert Offset(slots, 10) == Offset(slots, 9) && Offset(slots, 11) == Offset(slots, 10) + 2 * |p.attachDbFile|;
    var k := if p.attachDbFile != [] then 10 else 11;
    hide Encode, Slots, RegionStart, RegionEnd, Fits, ReadFeatures, Offset, Sspi;
    RegionIs(p, 9);
    RegionIs(p, k);
    assert !Apart(s, 9, k);
  }

  /** The table is right if and only if there is a host name, and nothing behind SSPI data. */
  lemma {:induction false} SoundExactly(p: Login)
    requires Fits(p)
    ensures Sound(Encode(p)) <==> Readable(p)
  {
    hide Encode, Sound, Fits, Sspi;
    if Readable(p) {
      ReadableSound(p);
    } else if p.hostname == [] {
      NoHostname(p);
    } else {
      NothingBehindSspi(p);
    }
  }
}
