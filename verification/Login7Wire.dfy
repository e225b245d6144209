/**
 LOGIN7 byte by byte: where each field of the message is, and what stands there, in
 plain arithmetic on the bytes, without the functions that write and read them.
 */
module Login7Wire {
  import opened Wrappers
  import opened Bytes
  import opened Login7Payload

  // Numbers and text.

  function Word(s: seq<byte>, at: nat): nat
    requires at + 2 <= |s|
  {
    s[at] as int + 0x100 * s[at + 1] as int
  }

  function Long(s: seq<byte>, at: nat): nat
    requires at + 4 <= |s|
  {
    s[at] as int + 0x100 * s[at + 1] as int + 0x1_0000 * s[at + 2] as int + 0x100_0000 * s[at + 3] as int
  }

  lemma {:induction false} LongIs(s: seq<byte>, at: nat)
    requires at + 4 <= |s|
    ensures Long(s, at) == ReadUInt32LE(s, at)
  {
  }

  /** A table entry, an offset and a length, and the code units that it leads to. */
  predicate TextAt(s: seq<byte>, entry: nat, t: seq<CodeUnit>)
    requires entry + 4 <= |s|
  {
    var ib := Word(s, entry);
    Word(s, entry + 2) == |t| && ib + 2 * |t| <= |s| && forall i | 0 <= i < |t| :: Word(s, ib + 2 * i) == t[i]
  }

  /** The same for a password. */
  predicate SecretAt(s: seq<byte>, entry: nat, t: seq<CodeUnit>)
    requires entry + 4 <= |s|
  {
    var ib := Word(s, entry);
    && Word(s, entry + 2) == |t| && ib + 2 * |t| <= |s|
    && forall i | 0 <= i < |t| :: Hides(s[ib + 2 * i], t[i] % 256) && Hides(s[ib + 2 * i + 1], t[i] / 256)
  }

  lemma {:induction false} EntryWords(p: Login, k: nat)
    requires Fits(p) && k < SLOTS
    ensures |Encode(p)| >= FIXED
    ensures Word(Encode(p), EntryAt(k)) == Offset(Slots(p), k) && Word(Encode(p), EntryAt(k) + 2) == Slots(p)[k].count
  {
    hide Slots, Encode, Offset, Fits;
    EntryInMessage(p, k);
  }

  /** The data of an entry that is not behind SSPI data. */
  lemma {:induction false} DataThere(p: Login, k: nat)
    requires Fits(p) && k < SLOTS && (k <= 9 || Sspi(p.sspi).data == [])
    ensures
      var s, data := Encode(p), Slots(p)[k].data;
      var ib := Offset(Slots(p), k);
      |s| >= FIXED && Word(s, EntryAt(k)) == ib && ib + |data| <= |s| && forall i | 0 <= i < |data| :: s[ib + i] == data[i]
  {
    assert TokenFits(p.fedAuth);
    hide Slots, Encode, Offset, Fits, Sspi;
    EntryWords(p, k);
    EntryInMessage(p, k);
    FollowOffset(p, k);
    var s, data := Encode(p), Slots(p)[k].data;
    var ib := Offset(Slots(p), k);
    assert s[ib..ib + |data|] == data;
  }

  lemma {:induction false} TextThere(p: Login, k: nat, t: seq<CodeUnit>)
    requires Fits(p) && k < SLOTS && k != 9 && (k <= 9 || Sspi(p.sspi).data == [] || t == []) && Slots(p)[k] == Text(t)
    ensures |Encode(p)| >= FIXED && TextAt(Encode(p), EntryAt(k), t)
  {
    assert TokenFits(p.fedAuth);
    hide Slots, Encode, Offset, Fits, Sspi, Ucs2;
    EntryWords(p, k);
    var s, ib := Encode(p), Offset(Slots(p), k);
    if t == [] {
      Located(p, k);
      Behind(p, k);
    } else {
      DataThere(p, k);
      forall i | 0 <= i < |t| ensures Word(s, ib + 2 * i) == t[i] {
        Ucs2Bytes(t, i);
        assert s[ib + 2 * i] == Ucs2(t)[2 * i] && s[ib + (2 * i + 1)] == Ucs2(t)[2 * i + 1];
      }
    }
  }

  lemma {:induction false} SecretBytes(t: seq<CodeUnit>, i: nat)
    requires i < |t|
    ensures
      var s := Scrambled(Ucs2(t));
      |s| == 2 * |t| && Hides(s[2 * i], t[i] % 256) && Hides(s[2 * i + 1], t[i] / 256)
  {
    hide Ucs2, Hides, Scramble;
    Ucs2Bytes(t, i);
    ScrambleBits(Ucs2(t)[2 * i]);
    ScrambleBits(Ucs2(t)[2 * i + 1]);
  }

  lemma {:induction false} PasswordThere(p: Login)
    requires Fits(p)
    ensures |Encode(p)| >= FIXED && SecretAt(Encode(p), 44, p.password)
  {
    OtherSlots(p);
    hide Slots, Encode, Offset, Fits, Ucs2, Hides, Scrambled, Sspi;
    EntryWords(p, 2);
    DataThere(p, 2);
    var s, ib, t := Encode(p), Offset(Slots(p), 2), p.password;
    assert Slots(p)[2].data == Scrambled(Ucs2(t)) && Slots(p)[2].count == |t|;
    hide Secret;
    forall i | 0 <= i < |t| ensures Hides(s[ib + 2 * i], t[i] % 256) && Hides(s[ib + 2 * i + 1], t[i] / 256) {
      SecretBytes(t, i);
      assert s[ib + 2 * i] == Scrambled(Ucs2(t))[2 * i] && s[ib + (2 * i + 1)] == Scrambled(Ucs2(t))[2 * i + 1];
    }
  }

  /**
   The table, at the offsets of section 2.2.6.4 of MS-TDS. Without a host name its entry
   says 94 twice, and behind SSPI data only what is empty is where the table says.
   */
  lemma {:induction false} TableBytes(p: Login)
    requires Fits(p)
    ensures
      var s := Encode(p);
      && |s| >= 94
      && (if p.hostname != [] then TextAt(s, 36, p.hostname) else Word(s, 36) == Word(s, 38) == 94)
      && TextAt(s, 40, p.userName) && SecretAt(s, 44, p.password) && TextAt(s, 48, p.appName) && TextAt(s, 52, p.serverName)
      && TextAt(s, 60, p.libraryName) && TextAt(s, 64, p.language) && TextAt(s, 68, p.database)
      && (p.sspi in {None, Some([])} || p.attachDbFile == [] ==> TextAt(s, 82, p.attachDbFile))
      && (p.sspi in {None, Some([])} || p.changePassword == [] ==> TextAt(s, 86, p.changePassword))
  {
    SlotTexts(p);
    assert p.hostname == [] ==> Slots(p)[0].count == 94 && Offset(Slots(p), 0) == 94;
    hide Slots, Encode, Offset, Fits, TextAt, SecretAt, Text;
    EntryWords(p, 0);
    if p.hostname != [] {
      TextThere(p, 0, p.hostname);
    }
    TextThere(p, 1, p.userName);
    PasswordThere(p);
    TextThere(p, 3, p.appName);
    TextThere(p, 4, p.serverName);
    TextThere(p, 6, p.libraryName);
    TextThere(p, 7, p.language);
    TextThere(p, 8, p.database);
    if p.sspi in {None, Some([])} || p.attachDbFile == [] {
      TextThere(p, 10, p.attachDbFile);
    }
    if p.sspi in {None, Some([])} || p.changePassword == [] {
      TextThere(p, 11, p.changePassword);
    }
  }

  /** SSPI data with its two lengths, and the client id, which six zeros stand for, or fill up. */
  lemma {:induction false} SspiBytes(p: Login)
    requires Fits(p)
    ensures
      var s, sspi := Encode(p), if p.sspi.Some? then p.sspi.value else [];
      && |s| >= 94 && Word(s, 80) == (if |sspi| > 65535 then 65535 else |sspi|)
      && Long(s, 90) == (if |sspi| > 65535 then |sspi| else 0)
      && Word(s, 78) + |sspi| <= |s| && s[Word(s, 78)..Word(s, 78) + |sspi|] == sspi
      && forall i | 0 <= i < 6 :: s[72 + i] == if p.clientId.Some? && i < |p.clientId.value| then p.clientId.value[i] else 0
  {
    OtherSlots(p);
    LongLength(p);
    ClientIdThere(p);
    hide Slots, Encode, Offset, Fits, UInt32LE, Long;
    EntryWords(p, 9);
    DataThere(p, 9);
  }

  lemma {:induction false} LongLength(p: Login)
    requires Fits(p)
    ensures |Encode(p)| >= 94 && Long(Encode(p), 90) == SspiLong(p)
  {
    assert Encode(p)[90..94] == UInt32LE(SspiLong(p)) by {
      hide Slots, UInt32LE, Fixed, Data;
    }
    EntryWords(p, 9);
    hide Slots, Encode, Fits, UInt32LE;
    LongAt(Encode(p), 90, SspiLong(p));
  }

  lemma {:induction false} ClientIdThere(p: Login)
    requires Fits(p)
    ensures |Encode(p)| >= 94
    ensures forall i | 0 <= i < 6 :: Encode(p)[72 + i] == if p.clientId.Some? && i < |p.clientId.value| then p.clientId.value[i] else 0
  {
    FlagsInMessage(p);
    hide Slots, Encode, Fits, Login7Payload.Bit;
    assert forall i | 0 <= i < 6 :: Encode(p)[72..78][i] == Encode(p)[72 + i];
  }

  /** The fields in front of the table. */
  lemma {:induction false} HeaderBytes(p: Login)
    requires Fits(p)
    ensures
      var s := Encode(p);
      && |s| >= 94 && Long(s, 0) == |s| && Long(s, 4) == p.tdsVersion && Long(s, 8) == p.packetSize && Long(s, 12) == p.clientProgVer
      && Long(s, 16) == p.clientPid && Long(s, 20) == p.connectionId
      && s[24] == (if p.initDbFatal then 0xF0 else 0xB0) && s[25] == (if p.sspi.Some? then 0x80 else 0x00)
      && s[26] == (if p.readOnlyIntent then 0x20 else 0x00) && s[27] == 0x18
      && Long(s, 28) == (if p.clientTimeZone < 0 then p.clientTimeZone + 0x1_0000_0000 else p.clientTimeZone) && Long(s, 32) == p.clientLcid
  {
    var s := Encode(p);
    NumbersInMessage(p);
    HeaderParts(p);
    hide Slots, Encode, Offset, Fits, UInt32LE, ReadUInt32LE, Header, Long;
    HeaderInMessage(p, 24, 28);
    var flags := s[24..28];
    assert s[24] == flags[0] && s[25] == flags[1] && s[26] == flags[2] && s[27] == flags[3];
    LongIs(s, 0);
    LongIs(s, 4);
    LongIs(s, 8);
    LongIs(s, 12);
    LongIs(s, 16);
    LongIs(s, 20);
    LongIs(s, 28);
    LongIs(s, 32);
  }

  // The feature extension.

  /** The bytes of the authentication feature, and how many there are. */
  predicate FedAuthAt(s: seq<byte>, at: nat, a: FedAuth, size: nat) {
    at + size <= |s| &&
    match a
    case NoFedAuth => size == 0
    case Adal(echo, integrated) =>
      size == 7 && s[at..at + 7] == [0x02, 2, 0, 0, 0, if echo then 0x05 else 0x04, if integrated then 0x02 else 0x01]
    case SecurityToken(echo, t) =>
      && size == 10 + 2 * |t| && s[at] == 0x02 && Long(s, at + 1) == 5 + 2 * |t| && s[at + 5] == (if echo then 0x03 else 0x02)
      && Long(s, at + 6) == 2 * |t| && forall i | 0 <= i < |t| :: Word(s, at + 10 + 2 * i) == t[i]
  }

  /** The bytes of the UTF-8 feature, since version 7.4, and the terminator. */
  predicate RestAt(s: seq<byte>, at: nat, tdsVersion: nat) {
    if tdsVersion >= 0x7400_0004 then at + 7 <= |s| && s[at..at + 7] == [0x0A, 1, 0, 0, 0, 0x01, 0xFF] else at < |s| && s[at] == 0xFF
  }

  function FedAuthSize(a: FedAuth): nat {
    match a
    case NoFedAuth => 0
    case Adal(_, _) => 7
    case SecurityToken(_, t) => 10 + 2 * |t|
  }

  lemma {:induction false} SmallNumbers(n: nat)
    requires n < 0x1_0000_0000
    ensures Long(UInt32LE(n), 0) == n
    ensures UInt32LE(1) == [1, 0, 0, 0] && UInt32LE(2) == [2, 0, 0, 0]
  {
    LongIs(UInt32LE(n), 0);
  }

  lemma {:induction false} Within(s: seq<byte>, at: nat, b: seq<byte>, i: nat, j: nat)
    requires at + |b| <= |s| && s[at..at + |b|] == b && i <= j <= |b|
    ensures s[at + i..at + j] == b[i..j]
    ensures i < j ==> s[at + i] == b[i]
  {
    var u := s[at..at + |b|];
    forall k | 0 <= k < j - i ensures u[i..j][k] == s[at + i..at + j][k] {
      assert u[i + k] == s[at + (i + k)];
    }
    if i < j {
      assert s[at + i] == u[i];
    }
  }

  lemma {:induction false} LongAt(s: seq<byte>, at: nat, n: nat)
    requires n < 0x1_0000_0000 && at + 4 <= |s| && s[at..at + 4] == UInt32LE(n)
    ensures Long(s, at) == n
  {
    SmallNumbers(n);
    hide UInt32LE;
    var t := UInt32LE(n);
    Within(s, at, t, 0, 4);
    Within(s, at, t, 1, 4);
    Within(s, at, t, 2, 4);
    Within(s, at, t, 3, 4);
  }

  /** The extension is the authentication feature, and then the rest. */
  lemma {:induction false} ExtensionParts(p: Login)
    requires TokenFits(p.fedAuth)
    ensures
      var first := FedAuthFeatures(p.fedAuth);
      FeatureExt(Features(p)) ==
        (if first == [] then [] else FeatureBytes(first[0]))
        + ((if p.tdsVersion >= VERSION_7_4 then FeatureBytes(Feature(0x0a, [0x01])) else []) + [TERMINATOR])
  {
    hide FeatureBytes, Ucs2, UInt32LE;
    var fs := Features(p);
    assert FeatureExt(fs) == if fs == [] then [TERMINATOR] else FeatureBytes(fs[0]) + FeatureExt(fs[1..]);
    if |fs| > 0 {
      assert FeatureExt(fs[1..]) == if fs[1..] == [] then [TERMINATOR] else FeatureBytes(fs[1]) + FeatureExt(fs[1..][1..]);
    }
  }

  lemma {:induction false} TokenBytes(echo: bool, t: seq<byte>)
    requires |t| < 0x8000_0000
    ensures
      var b := FeatureBytes(TokenFeature(echo, t));
      && |b| == 10 + |t| && b[0] == 0x02 && b[1..5] == UInt32LE(5 + |t|) && b[5] == (if echo then 0x03 else 0x02)
      && b[6..10] == UInt32LE(|t|) && b[10..] == t
  {
    hide UInt32LE;
    var data := TokenFeature(echo, t).data;
    var b := FeatureBytes(TokenFeature(echo, t));
    assert |data| == 5 + |t| && data[0] == (if echo then 0x03 else 0x02) && data[1..5] == UInt32LE(|t|) && data[5..] == t;
    assert b[5..] == data && b[6..10] == data[1..5] && b[10..] == data[5..] && b[5] == data[0];
  }

  lemma {:induction false} TokenThere(s: seq<byte>, at: nat, echo: bool, t: seq<CodeUnit>)
    requires 2 * |t| < 0x8000_0000
    requires var b := FeatureBytes(TokenFeature(echo, Ucs2(t))); at + |b| <= |s| && s[at..at + |b|] == b
    ensures FedAuthAt(s, at, SecurityToken(echo, t), 10 + 2 * |t|)
  {
    TokenBytes(echo, Ucs2(t));
    var b := FeatureBytes(TokenFeature(echo, Ucs2(t)));
    hide UInt32LE, Ucs2, FeatureBytes, TokenFeature, Long;
    Within(s, at, b, 0, 1);
    Within(s, at, b, 1, 5);
    Within(s, at, b, 5, 6);
    Within(s, at, b, 6, 10);
    LongAt(s, at + 1, 5 + 2 * |t|);
    LongAt(s, at + 6, 2 * |t|);
    forall i | 0 <= i < |t| ensures Word(s, at + 10 + 2 * i) == t[i] {
      UnitThere(s, at, b, t, i);
    }
  }

  lemma {:induction false} UnitThere(s: seq<byte>, at: nat, b: seq<byte>, t: seq<CodeUnit>, i: nat)
    requires i < |t| && |b| == 10 + 2 * |t| && b[10..] == Ucs2(t) && at + |b| <= |s| && s[at..at + |b|] == b
    ensures Word(s, at + 10 + 2 * i) == t[i]
  {
    hide Ucs2;
    Ucs2Bytes(t, i);
    Within(s, at, b, 10 + 2 * i, 12 + 2 * i);
    Within(s, at, b, 11 + 2 * i, 12 + 2 * i);
    assert b[10 + 2 * i] == b[10..][2 * i] && b[11 + 2 * i] == b[10..][2 * i + 1];
  }

  lemma {:induction false} AdalThere(s: seq<byte>, at: nat, echo: bool, integrated: bool)
    requires var b := FeatureBytes(AdalFeature(echo, integrated)); at + |b| <= |s| && s[at..at + |b|] == b
    ensures FedAuthAt(s, at, Adal(echo, integrated), 7)
  {
    SmallNumbers(2);
    hide UInt32LE;
  }

  /** The pointer leads behind itself, to the features by their bytes. */
  lemma {:induction false} ExtensionBytes(p: Login)
    requires Fits(p)
    ensures
      var s := Encode(p);
      && |s| >= 94 && Word(s, 58) == 4 && Word(s, 56) + 4 <= |s|
      && var at := Long(s, Word(s, 56));
      && at == Word(s, 56) + 4 && FedAuthAt(s, at, p.fedAuth, FedAuthSize(p.fedAuth)) && RestAt(s, at + FedAuthSize(p.fedAuth), p.tdsVersion)
  {
    assert TokenFits(p.fedAuth);
    hide *;
    ExtensionData(p);
    EntryWords(p, 5);
    Entry56();
    ExtensionFrom(Encode(p), Offset(Slots(p), 5), p);
  }

  lemma {:induction false} Entry56()
    ensures EntryAt(5) == 56 && 5 < SLOTS && FIXED == 94
  {
  }

  lemma {:induction false} ExtensionFrom(s: seq<byte>, start: nat, p: Login)
    requires TokenFits(p.fedAuth) && start < 0x1_0000
    requires var ext := FeatureExt(Features(p)); start + 4 + |ext| <= |s| && s[start..start + 4 + |ext|] == UInt32LE(start + 4) + ext
    ensures Long(s, start) == start + 4
    ensures FedAuthAt(s, start + 4, p.fedAuth, FedAuthSize(p.fedAuth)) && RestAt(s, start + 4 + FedAuthSize(p.fedAuth), p.tdsVersion)
  {
    hide UInt32LE, FeatureExt, Features, FedAuthAt, RestAt, FeatureBytes, FedAuthFeatures, FedAuthSize, Long;
    PointerThere(s, start, FeatureExt(Features(p)));
    FeaturesThere(s, start + 4, p);
  }

  lemma {:induction false} PointerThere(s: seq<byte>, start: nat, ext: seq<byte>)
    requires start < 0x1_0000 && start + 4 + |ext| <= |s| && s[start..start + 4 + |ext|] == UInt32LE(start + 4) + ext
    ensures Long(s, start) == start + 4 && s[start + 4..start + 4 + |ext|] == ext
  {
    hide UInt32LE, Long;
    SplitAt(s, start, UInt32LE(start + 4), ext);
    LongAt(s, start, start + 4);
  }

  lemma {:induction false} FeaturesThere(s: seq<byte>, at: nat, p: Login)
    requires TokenFits(p.fedAuth)
    requires var ext := FeatureExt(Features(p)); at + |ext| <= |s| && s[at..at + |ext|] == ext
    ensures FedAuthAt(s, at, p.fedAuth, FedAuthSize(p.fedAuth)) && RestAt(s, at + FedAuthSize(p.fedAuth), p.tdsVersion)
  {
    var features := FedAuthFeatures(p.fedAuth);
    var first := if features == [] then [] else FeatureBytes(features[0]);
    var rest := (if p.tdsVersion >= VERSION_7_4 then FeatureBytes(Feature(0x0a, [0x01])) else []) + [TERMINATOR];
    hide UInt32LE, FeatureExt, Features, FedAuthAt, RestAt, FeatureBytes, FedAuthFeatures, FedAuthSize;
    ExtensionParts(p);
    assert FeatureExt(Features(p)) == first + rest;
    ExtensionThere(s, at, p, first, rest);
  }

  lemma {:induction false} RestBytes(tdsVersion: UInt32)
    ensures (if tdsVersion >= VERSION_7_4 then FeatureBytes(Feature(0x0a, [0x01])) else []) + [TERMINATOR] ==
      if tdsVersion >= 0x7400_0004 then [0x0A, 1, 0, 0, 0, 0x01, 0xFF] else [0xFF]
  {
    SmallNumbers(1);
    hide UInt32LE;
    var f := Feature(0x0a, [0x01]);
    assert FeatureBytes(f) == [0x0A, 1, 0, 0, 0, 0x01];
  }

  lemma {:induction false} FirstBytes(a: FedAuth)
    requires TokenFits(a)
    ensures
      var first := FedAuthFeatures(a);
      if a == NoFedAuth then first == [] else first != [] && |FeatureBytes(first[0])| == FedAuthSize(a)
  {
    hide UInt32LE, Ucs2;
  }

  lemma {:induction false} RestThere(s: seq<byte>, at: nat, tdsVersion: nat, rest: seq<byte>)
    requires rest == if tdsVersion >= 0x7400_0004 then [0x0A, 1, 0, 0, 0, 0x01, 0xFF] else [0xFF]
    requires at + |rest| <= |s| && s[at..at + |rest|] == rest
    ensures RestAt(s, at, tdsVersion)
  {
    Within(s, at, rest, 0, 1);
  }

  lemma {:induction false} ExtensionThere(s: seq<byte>, at: nat, p: Login, first: seq<byte>, rest: seq<byte>)
    requires TokenFits(p.fedAuth) && at + |first| + |rest| <= |s| && s[at..at + |first| + |rest|] == first + rest
    requires var features := FedAuthFeatures(p.fedAuth); first == if features == [] then [] else FeatureBytes(features[0])
    requires rest == (if p.tdsVersion >= VERSION_7_4 then FeatureBytes(Feature(0x0a, [0x01])) else []) + [TERMINATOR]
    ensures FedAuthAt(s, at, p.fedAuth, FedAuthSize(p.fedAuth)) && RestAt(s, at + FedAuthSize(p.fedAuth), p.tdsVersion)
  {
    hide FedAuthFeatures, FeatureBytes, FedAuthAt, RestAt, UInt32LE, Ucs2, FedAuthSize;
    RestBytes(p.tdsVersion);
    FirstBytes(p.fedAuth);
    NoSize();
    SplitAt(s, at, first, rest);
    RestThere(s, at + |first|, p.tdsVersion, rest);
    FirstThere(s, at, p.fedAuth);
  }

  lemma {:induction false} NoSize()
    ensures FedAuthSize(NoFedAuth) == 0
  {
  }

  lemma {:induction false} FirstThere(s: seq<byte>, at: nat, a: FedAuth)
    requires TokenFits(a) && at <= |s|
    requires
      var features := FedAuthFeatures(a);
      features != [] ==> var b := FeatureBytes(features[0]); at + |b| <= |s| && s[at..at + |b|] == b
    ensures FedAuthAt(s, at, a, FedAuthSize(a))
  {
    hide FeatureBytes, AdalFeature, TokenFeature, UInt32LE, Ucs2;
    match a
    case NoFedAuth =>
    case Adal(echo, integrated) => AdalThere(s, at, echo, integrated);
    case SecurityToken(echo, t) => TokenThere(s, at, echo, t);
  }
}
