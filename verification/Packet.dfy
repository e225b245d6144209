/**
 The TDS packet: an 8-byte header followed by the payload (section 2.2.3.1 of
 MS-TDS). Each function below is one of the setters that the packetiser applies
 to a packet's buffer, in the buffer's own terms.
 */
module Packet {
  import opened Bytes

  const HEADER_LENGTH := 8
  const MAX_PACKET := 0xFFFF

  datatype Flag = EndOfMessage | Ignore | ResetConnection {
    function Mask(): int {
      match this
      case EndOfMessage => 0x01
      case Ignore => 0x02
      case ResetConnection => 0x08
    }
  }

  predicate HasFlag(status: byte, flag: Flag) {
    match flag
    case EndOfMessage => status as int % 2 == 1
    case Ignore => status as int / 2 % 2 == 1
    case ResetConnection => status as int / 8 % 2 == 1
  }

  /** `status |= mask` or `status &= 0xFF - mask`. */
  function WithFlag(status: byte, flag: Flag, on: bool): (r: byte)
    ensures HasFlag(r, flag) == on
    ensures forall f | f != flag :: HasFlag(r, f) == HasFlag(status, f)
  {
    if HasFlag(status, flag) == on then status
    else
      FlipOneBit(status, flag);
      if on then status as int + flag.Mask() else status as int - flag.Mask()
  }

  /** The three bits, in a status split after its third bit. */
  lemma Bits(high: int, low: int)
    requires 0 <= high < 32 && 0 <= low < 8
    ensures 0 <= 8 * high + low < 256
    ensures HasFlag(8 * high + low, EndOfMessage) == (low % 2 == 1)
    ensures HasFlag(8 * high + low, Ignore) == (low / 2 % 2 == 1)
    ensures HasFlag(8 * high + low, ResetConnection) == (high % 2 == 1)
  {
    var status := 8 * high + low;
    assert status / 8 == high;
    assert status % 2 == low % 2;
    assert status / 2 == 4 * high + low / 2;
    assert (4 * high + low / 2) % 2 == low / 2 % 2;
  }

  /** Adding a mask whose bit is clear, or taking away one whose bit is set, carries nowhere. */
  lemma FlipOneBit(status: byte, flag: Flag)
    ensures
      var flipped := if HasFlag(status, flag) then status as int - flag.Mask() else status as int + flag.Mask();
      && 0 <= flipped < 256
      && HasFlag(flipped, flag) == !HasFlag(status, flag)
      && forall f | f != flag :: HasFlag(flipped, f) == HasFlag(status, f)
  {
    hide HasFlag;
    var high, low := status as int / 8, status as int % 8;
    Bits(high, low);
    assert low == 0 || low == 1 || low == 2 || low == 3 || low == 4 || low == 5 || low == 6 || low == 7;
    match flag
    case EndOfMessage => Bits(high, if low % 2 == 1 then low - 1 else low + 1);
    case Ignore => Bits(high, if low / 2 % 2 == 1 then low - 2 else low + 2);
    case ResetConnection => Bits(if high % 2 == 1 then high - 1 else high + 1, low);
  }

  /** A buffer whose header is complete and whose length field is right. */
  predicate WellFormed(p: seq<byte>) {
    HEADER_LENGTH <= |p| <= MAX_PACKET && ReadUInt16BE(p, 2) == |p|
  }

  function NewPacket(type_: byte): (p: seq<byte>)
    ensures WellFormed(p) && |p| == HEADER_LENGTH
  {
    [type_, 0, 0, HEADER_LENGTH, 0, 0, 1, 0]
  }

  /** Zero is not a packet id, and leaves the default in place. */
  function SetPacketId(p: seq<byte>, id: nat): (r: seq<byte>)
    requires WellFormed(p)
    ensures WellFormed(r) && |r| == |p|
  {
    if id == 0 then p else p[6 := id % 256]
  }

  function SetFlag(p: seq<byte>, flag: Flag, on: bool): (r: seq<byte>)
    requires WellFormed(p)
    ensures WellFormed(r) && |r| == |p|
  {
    p[1 := WithFlag(p[1], flag, on)]
  }

  function AddData(p: seq<byte>, data: seq<byte>): (r: seq<byte>)
    requires WellFormed(p) && |p| + |data| <= MAX_PACKET
    ensures WellFormed(r) && |r| == |p| + |data|
  {
    var length := UInt16BE(|p| + |data|);
    (p + data)[2 := length[0]][3 := length[1]]
  }

  // What a receiver reads back.

  function TypeOf(p: seq<byte>): byte
    requires WellFormed(p)
  {
    p[0]
  }

  predicate IsLast(p: seq<byte>)
    requires WellFormed(p)
  {
    HasFlag(p[1], EndOfMessage)
  }

  function Data(p: seq<byte>): seq<byte>
    requires WellFormed(p)
  {
    p[HEADER_LENGTH..]
  }

  /** What a packet says, byte by byte: type, status, length, process id, packet id, window, data. */
  ghost predicate Says(p: seq<byte>, type_: byte, id: nat, reset: bool, last: bool, ignore: bool, data: seq<byte>) {
    && |p| == 8 + |data| <= 0xFFFF
    && p[0] == type_
    && p[1] as int == (if last then 0x01 else 0) + (if ignore then 0x02 else 0) + (if reset then 0x08 else 0)
    && p[2] as int * 256 + p[3] as int == |p|
    && p[4] == 0 && p[5] == 0
    && p[6] == id % 256
    && p[7] == 0
    && p[8..] == data
  }

  /** A receiver reads from it what it says. */
  lemma {:induction false} SaysRead(p: seq<byte>, type_: byte, id: nat, reset: bool, last: bool, ignore: bool, data: seq<byte>)
    requires Says(p, type_, id, reset, last, ignore, data)
    ensures WellFormed(p) && TypeOf(p) == type_ && IsLast(p) == last && Data(p) == data
    ensures HasFlag(p[1], Ignore) == ignore && HasFlag(p[1], ResetConnection) == reset
  {
  }

  /** A packet from the middle of a message. */
  function Middle(type_: byte, id: nat, reset: bool, data: seq<byte>): (p: seq<byte>)
    requires id > 0 && HEADER_LENGTH + |data| <= MAX_PACKET
    ensures Says(p, type_, id, reset, false, false, data)
  {
    AddData(SetFlag(SetPacketId(NewPacket(type_), id), ResetConnection, reset), data)
  }

  /** The packet that ends a message. */
  function Final(type_: byte, id: nat, reset: bool, ignore: bool, data: seq<byte>): (p: seq<byte>)
    requires id > 0 && HEADER_LENGTH + |data| <= MAX_PACKET
    ensures Says(p, type_, id, reset, true, ignore, data)
  {
    var p := SetFlag(SetPacketId(NewPacket(type_), id), ResetConnection, reset);
    AddData(SetFlag(SetFlag(p, EndOfMessage, true), Ignore, ignore), data)
  }
}
