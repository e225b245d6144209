/** Bytes, flattening, and the fixed-width integers that the TDS wire format uses. */
module Bytes {
  type byte = x: int | 0 <= x < 256

  /** One UTF-16 code unit; 'ucs2' strings are sequences of these. */
  type CodeUnit = x: int | 0 <= x < 0x1_0000

  function Concat<T>(chunks: seq<seq<T>>): seq<T> {
    if chunks == [] then [] else chunks[0] + Concat(chunks[1..])
  }

  lemma {:induction false} ConcatAppend<T>(a: seq<seq<T>>, b: seq<seq<T>>)
    ensures Concat(a + b) == Concat(a) + Concat(b)
  {
    if a == [] {
      assert a + b == b;
    } else {
      assert (a + b)[1..] == a[1..] + b;
      ConcatAppend(a[1..], b);
    }
  }

  lemma ConcatOne<T>(a: seq<seq<T>>, x: seq<T>)
    ensures Concat(a + [x]) == Concat(a) + x
  {
    ConcatAppend(a, [x]);
    assert Concat([x]) == x + Concat([x][1..]);
  }

  function Zeros(n: nat): (s: seq<byte>)
    ensures |s| == n
  {
    seq(n, _ => 0)
  }

  // Big- and little-endian unsigned integers.

  function UInt16BE(n: nat): (s: seq<byte>)
    requires n < 0x1_0000
    ensures |s| == 2 && ReadUInt16BE(s, 0) == n
  {
    [n / 256, n % 256]
  }

  function ReadUInt16BE(s: seq<byte>, at: nat): (n: nat)
    requires at + 2 <= |s|
    ensures n < 0x1_0000
  {
    s[at] as int * 256 + s[at + 1] as int
  }

  function UInt16LE(n: nat): (s: seq<byte>)
    requires n < 0x1_0000
    ensures |s| == 2 && ReadUInt16LE(s, 0) == n
  {
    [n % 256, n / 256]
  }

  function ReadUInt16LE(s: seq<byte>, at: nat): (n: nat)
    requires at + 2 <= |s|
    ensures n < 0x1_0000
  {
    s[at] as int + s[at + 1] as int * 256
  }

  function UInt32LE(n: nat): (s: seq<byte>)
    requires n < 0x1_0000_0000
    ensures |s| == 4 && ReadUInt32LE(s, 0) == n
  {
    UInt16LE(n % 0x1_0000) + UInt16LE(n / 0x1_0000)
  }

  function ReadUInt32LE(s: seq<byte>, at: nat): (n: nat)
    requires at + 4 <= |s|
    ensures n < 0x1_0000_0000
  {
    ReadUInt16LE(s, at) + ReadUInt16LE(s, at + 2) * 0x1_0000
  }

  /** Reading an integer depends only on the bytes that are read. */
  lemma ReadUInt16LEAt(s: seq<byte>, at: nat, t: seq<byte>, i: nat)
    requires at + 2 <= |s| && i + 2 <= |t| && s[at..at + 2] == t[i..i + 2]
    ensures ReadUInt16LE(s, at) == ReadUInt16LE(t, i)
  {
    var u := s[at..at + 2];
    assert s[at] == u[0] == t[i..i + 2][0] == t[i] && s[at + 1] == u[1] == t[i..i + 2][1] == t[i + 1];
  }

  lemma ReadUInt32LEAt(s: seq<byte>, at: nat, t: seq<byte>, i: nat)
    requires at + 4 <= |s| && i + 4 <= |t| && s[at..at + 4] == t[i..i + 4]
    ensures ReadUInt32LE(s, at) == ReadUInt32LE(t, i)
  {
    var u := s[at..at + 4];
    assert s[at..at + 2] == u[..2] == t[i..i + 2] && s[at + 2..at + 4] == u[2..] == t[i + 2..i + 4];
    ReadUInt16LEAt(s, at, t, i);
    ReadUInt16LEAt(s, at + 2, t, i + 2);
  }

  /** The 'ucs2' encoding: two little-endian bytes per code unit. */
  function Ucs2(units: seq<CodeUnit>): (s: seq<byte>)
    ensures |s| == 2 * |units|
  {
    if units == [] then [] else UInt16LE(units[0]) + Ucs2(units[1..])
  }

  /** Reads `count` code units starting at byte `at`. */
  function ReadUcs2(s: seq<byte>, at: nat, count: nat): (units: seq<CodeUnit>)
    requires at + 2 * count <= |s|
    ensures |units| == count
    decreases count
  {
    if count == 0 then [] else [ReadUInt16LE(s, at)] + ReadUcs2(s, at + 2, count - 1)
  }

  /** Reading depends only on the bytes that are read. */
  lemma {:induction false} ReadUcs2Local(s: seq<byte>, at: nat, t: seq<byte>, at': nat, count: nat)
    requires at + 2 * count <= |s| && at' + 2 * count <= |t|
    requires s[at..at + 2 * count] == t[at'..at' + 2 * count]
    ensures ReadUcs2(s, at, count) == ReadUcs2(t, at', count)
    decreases count
  {
    if count > 0 {
      var u, v := s[at..at + 2 * count], t[at'..at' + 2 * count];
      assert s[at] == u[0] == v[0] == t[at'] && s[at + 1] == u[1] == v[1] == t[at' + 1];
      assert s[at + 2..at + 2 * count] == u[2..] == v[2..] == t[at' + 2..at' + 2 * count];
      ReadUcs2Local(s, at + 2, t, at' + 2, count - 1);
    }
  }

  lemma {:induction false} Ucs2RoundTrip(units: seq<CodeUnit>)
    ensures ReadUcs2(Ucs2(units), 0, |units|) == units
  {
    if units != [] {
      var s, rest := Ucs2(units), Ucs2(units[1..]);
      Ucs2RoundTrip(units[1..]);
      assert s[2..] == rest;
      ReadUcs2Local(s, 2, rest, 0, |units| - 1);
      assert s[0] == UInt16LE(units[0])[0] && s[1] == UInt16LE(units[0])[1];
      assert ReadUInt16LE(s, 0) == units[0];
    }
  }

  /** The low byte comes first. */
  lemma {:induction false} Ucs2Bytes(t: seq<CodeUnit>, i: nat)
    requires i < |t|
    ensures Ucs2(t)[2 * i] as int == t[i] % 256 && Ucs2(t)[2 * i + 1] as int == t[i] / 256
    decreases i
  {
    if i > 0 {
      Ucs2Bytes(t[1..], i - 1);
    }
  }

  /** Every even number of bytes is the encoding of what they decode to. */
  lemma {:induction false} Ucs2Exact(s: seq<byte>, at: nat, count: nat)
    requires at + 2 * count <= |s|
    ensures Ucs2(ReadUcs2(s, at, count)) == s[at..at + 2 * count]
    decreases count
  {
    if count > 0 {
      Ucs2Exact(s, at + 2, count - 1);
      assert UInt16LE(ReadUInt16LE(s, at)) == s[at..at + 2];
      assert s[at..at + 2 * count] == s[at..at + 2] + s[at + 2..at + 2 * count];
    }
  }
}
