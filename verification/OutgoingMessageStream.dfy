/**
 The packetiser: a message arrives in chunks of any size, and leaves as packets
 of the negotiated size.
 */
module OutgoingMessageStream {
  import opened Bytes
  import opened Packet

  // What the packetiser is meant to compute, as a function of the whole content.

  /** The full payloads that come off the front of a buffer while more than `n` bytes are held. */
  function FullPayloads(buf: seq<byte>, n: nat): (payloads: seq<seq<byte>>)
    requires n > 0
    ensures forall i | 0 <= i < |payloads| :: |payloads[i]| == n
  {
    if |buf| <= n then [] else [buf[..n]] + FullPayloads(buf[n..], n)
  }

  /** What stays in the buffer after those payloads are taken. */
  function Remainder(buf: seq<byte>, n: nat): (rest: seq<byte>)
    requires n > 0
    ensures |rest| <= n && (buf != [] ==> rest != [])
  {
    if |buf| <= n then buf else Remainder(buf[n..], n)
  }

  /** The packets that carry full payloads, numbered from `firstId`. */
  function MiddlePackets(type_: byte, reset: bool, firstId: nat, payloads: seq<seq<byte>>): (packets: seq<seq<byte>>)
    requires firstId > 0
    requires forall i | 0 <= i < |payloads| :: HEADER_LENGTH + |payloads[i]| <= MAX_PACKET
    ensures |packets| == |payloads|
  {
    seq(|payloads|, i requires 0 <= i < |payloads| => Middle(type_, firstId + i, reset, payloads[i]))
  }

  predicate ValidLength(n: nat) {
    0 < n && HEADER_LENGTH + n <= MAX_PACKET
  }

  /** The packets of one message, all of them. */
  function MessagePackets(type_: byte, reset: bool, ignore: bool, data: seq<byte>, n: nat): (packets: seq<seq<byte>>)
    requires ValidLength(n)
    ensures |packets| > 0
  {
    var full := FullPayloads(data, n);
    MiddlePackets(type_, reset, 1, full) + [Final(type_, |full| + 1, reset, ignore, Remainder(data, n))]
  }

  // The two functions above do not depend on where chunk boundaries fall.

  lemma {:induction false} CutPoint(a: seq<byte>, b: seq<byte>, n: nat)
    requires n > 0
    ensures FullPayloads(a + b, n) == FullPayloads(a, n) + FullPayloads(Remainder(a, n) + b, n)
    ensures Remainder(a + b, n) == Remainder(Remainder(a, n) + b, n)
    decreases |a|
  {
    if |a| > n {
      assert (a + b)[..n] == a[..n] && (a + b)[n..] == a[n..] + b;
      CutPoint(a[n..], b, n);
      var rest := FullPayloads(Remainder(a, n) + b, n);
      assert [a[..n]] + (FullPayloads(a[n..], n) + rest) == ([a[..n]] + FullPayloads(a[n..], n)) + rest;
    }
  }

  lemma {:induction false} PayloadsReassemble(data: seq<byte>, n: nat)
    requires n > 0
    ensures Concat(FullPayloads(data, n)) + Remainder(data, n) == data
    decreases |data|
  {
    if |data| > n {
      PayloadsReassemble(data[n..], n);
      var full, rest := FullPayloads(data[n..], n), Remainder(data, n);
      assert ([data[..n]] + full)[1..] == full;
      assert data == data[..n] + data[n..];
    }
  }

  lemma {:induction false} PayloadCount(data: seq<byte>, n: nat)
    requires n > 0
    ensures |data| == |FullPayloads(data, n)| * n + |Remainder(data, n)|
    decreases |data|
  {
    if |data| > n {
      PayloadCount(data[n..], n);
      var k := |FullPayloads(data[n..], n)|;
      assert (1 + k) * n == n + k * n;
    }
  }

  /** The payloads of the packets of a message, the last one included. */
  function Payloads(data: seq<byte>, n: nat): seq<seq<byte>>
    requires n > 0
  {
    FullPayloads(data, n) + [Remainder(data, n)]
  }

  /** Their number is max(1, ceil(|data| / n)), and they are the message. */
  lemma CanonicalPayloads(data: seq<byte>, n: nat)
    requires n > 0
    ensures |Payloads(data, n)| == if data == [] then 1 else (|data| + n - 1) / n
    ensures Concat(Payloads(data, n)) == data
  {
    var full, rest := FullPayloads(data, n), Remainder(data, n);
    PayloadsReassemble(data, n);
    ConcatOne(full, rest);
    PayloadCount(data, n);
    if data != [] {
      var k := |full|;
      assert |data| + n - 1 == (k + 1) * n + (|rest| - 1) by { assert (k + 1) * n == k * n + n; }
      QuotientIs(|data| + n - 1, k + 1, n, |rest| - 1);
    }
  }

  /**
   The packets of a message are canonical: there are max(1, ceil(|data| / n)) of
   them, every one but the last is full, ids run from 1, the reset flag is the
   same on all of them, only the last ends the message and only it can carry the
   ignore flag, and their payloads are the message.
   */
  lemma {:induction false} CanonicalPackets(type_: byte, reset: bool, ignore: bool, data: seq<byte>, n: nat)
    requires ValidLength(n)
    ensures
      var packets, payloads := MessagePackets(type_, reset, ignore, data, n), Payloads(data, n);
      && |packets| == |payloads| == (if data == [] then 1 else (|data| + n - 1) / n)
      && Concat(payloads) == data
      && (forall i | 0 <= i < |packets| - 1 ::
            |payloads[i]| == n && Says(packets[i], type_, i + 1, reset, false, false, payloads[i]))
      && Says(packets[|packets| - 1], type_, |packets|, reset, true, ignore, payloads[|packets| - 1])
  {
    CanonicalPayloads(data, n);
    var packets, payloads, full := MessagePackets(type_, reset, ignore, data, n), Payloads(data, n), FullPayloads(data, n);
    assert |packets| == |payloads|;
    forall i | 0 <= i < |packets| - 1
      ensures |payloads[i]| == n && Says(packets[i], type_, i + 1, reset, false, false, payloads[i])
    {
      assert packets[i] == Middle(type_, i + 1, reset, full[i]);
    }
  }

  lemma {:induction false} QuotientIs(x: nat, q: nat, n: nat, r: nat)
    requires n > 0 && r < n && x == q * n + r
    ensures x / n == q
  {
    var d := x / n - q;
    assert d * n == r - x % n;
  }

  /** The part of an outgoing message object that the packetiser looks at. */
  class Message {
    const type_: byte
    const resetConnection: bool
    var ignore: bool
    var paused: bool

    constructor (type_: byte, resetConnection: bool)
      ensures this.type_ == type_ && this.resetConnection == resetConnection && !ignore && !paused
    {
      this.type_, this.resetConnection := type_, resetConnection;
      ignore, paused := false, false;
    }
  }

  class OutgoingMessageStream {
    var packetSize: nat
    var bl: seq<byte>
    var currentMessage: Message?
    // The variables that the handlers of the current message close over.
    var length: nat
    var packetNumber: nat
    // The readable side: every packet pushed so far.
    var output: seq<seq<byte>>

    // The bytes of the current message accepted so far, and where its packets start.
    ghost var accepted: seq<byte>
    ghost var mark: nat

    ghost predicate Valid()
      reads this
    {
      if currentMessage == null then
        bl == [] && accepted == [] && mark == |output|
      else
        && ValidLength(length)
        && mark <= |output|
        && bl == Remainder(accepted, length)
        && packetNumber == |FullPayloads(accepted, length)|
        && output[mark..] == MiddlePackets(currentMessage.type_, currentMessage.resetConnection, 1, FullPayloads(accepted, length))
    }

    constructor (packetSize: nat)
      ensures Valid() && this.packetSize == packetSize && currentMessage == null && output == []
    {
      this.packetSize := packetSize;
      bl, output, currentMessage := [], [], null;
      length, packetNumber := 0, 0;
      accepted, mark := [], 0;
    }

    /** A new packet size takes effect with the next message. */
    method SetPacketSize(packetSize: nat)
      requires Valid()
      modifies this`packetSize
      ensures Valid() && this.packetSize == packetSize
    {
      this.packetSize := packetSize;
    }

    /** The stream machinery hands over one message at a time. */
    method Write(message: Message)
      requires Valid() && currentMessage == null
      requires HEADER_LENGTH < packetSize <= MAX_PACKET
      modifies this`length, this`packetNumber, this`currentMessage, this`accepted, this`mark
      ensures Valid() && currentMessage == message && length == packetSize - HEADER_LENGTH
      ensures accepted == [] && mark == |output|
    {
      length := packetSize - HEADER_LENGTH;
      packetNumber := 0;
      currentMessage := message;
      accepted, mark := [], |output|;
    }

    /** The body of the packetising loop: one full packet. */
    method PushPacket(message: Message, data: seq<byte>, ghost done: seq<seq<byte>>)
      requires ValidLength(length) && |data| == length && packetNumber == |done| && mark <= |output|
      requires forall i | 0 <= i < |done| :: |done[i]| == length
      requires output[mark..] == MiddlePackets(message.type_, message.resetConnection, 1, done)
      modifies this`packetNumber, this`output, message`paused
      ensures packetNumber == |done| + 1
      ensures mark <= |output| && output[..mark] == old(output[..mark])
      ensures output[mark..] == MiddlePackets(message.type_, message.resetConnection, 1, done + [data])
    {
      hide NewPacket, SetPacketId, SetFlag, AddData;
      packetNumber := packetNumber + 1;
      var packet := NewPacket(message.type_);
      packet := SetPacketId(packet, packetNumber);
      packet := SetFlag(packet, ResetConnection, message.resetConnection);
      packet := AddData(packet, data);
      assert packet == Middle(message.type_, packetNumber, message.resetConnection, data);

      ghost var before := output;
      output := output + [packet];
      assert output[mark..] == before[mark..] + [packet];
      if * {
        message.paused := true;  // the push reported back-pressure
      }
    }

    /** The handler of the message's 'data' event. */
    method OnData(chunk: seq<byte>)
      requires Valid() && currentMessage != null
      modifies this`bl, this`packetNumber, this`output, this`accepted, currentMessage`paused
      ensures Valid() && mark == old(mark) && output[..mark] == old(output[..mark])
      ensures accepted == old(accepted) + (if currentMessage.ignore then [] else chunk)
    {
      hide MiddlePackets, NewPacket, SetPacketId, SetFlag, AddData;
      var message := currentMessage;
      if message.ignore {
        return;
      }
      bl := bl + chunk;
      ghost var target := accepted + chunk;
      CutPoint(accepted, chunk, length);
      ghost var done := FullPayloads(accepted, length);
      while |bl| > length
        invariant FullPayloads(target, length) == done + FullPayloads(bl, length)
        invariant Remainder(target, length) == Remainder(bl, length)
        invariant forall i | 0 <= i < |done| :: |done[i]| == length
        invariant packetNumber == |done|
        invariant mark <= |output| && output[..mark] == old(output[..mark])
        invariant output[mark..] == MiddlePackets(message.type_, message.resetConnection, 1, done)
        decreases |bl|
      {
        var data := bl[..length];
        bl := bl[length..];
        PushPacket(message, data, done);
        assert done + ([data] + FullPayloads(bl, length)) == (done + [data]) + FullPayloads(bl, length);
        done := done + [data];
      }
      assert done + [] == done;
      accepted := target;
    }

    /** The handler of the message's 'end' event. */
    method OnEnd()
      requires Valid() && currentMessage != null
      modifies this`bl, this`packetNumber, this`output, this`currentMessage, this`accepted, this`mark
      ensures Valid() && currentMessage == null && bl == []
      ensures output == old(output[..mark]) +
        MessagePackets(old(currentMessage).type_, old(currentMessage).resetConnection, old(currentMessage.ignore), old(accepted), length)
    {
      hide NewPacket, SetPacketId, SetFlag, AddData, FullPayloads, Remainder;
      var message := currentMessage;
      var data := bl;
      bl := [];

      packetNumber := packetNumber + 1;
      var packet := NewPacket(message.type_);
      packet := SetPacketId(packet, packetNumber);
      packet := SetFlag(packet, ResetConnection, message.resetConnection);
      packet := SetFlag(packet, EndOfMessage, true);
      packet := SetFlag(packet, Ignore, message.ignore);
      packet := AddData(packet, data);
      assert packet == Final(message.type_, packetNumber, message.resetConnection, message.ignore, data);

      assert output == output[..mark] + output[mark..];
      output := output + [packet];
      currentMessage := null;
      accepted, mark := [], |output|;
    }

    /** The consumer wants more packets, so a paused message flows again. */
    method Read()
      requires Valid()
      modifies if currentMessage == null then {} else {currentMessage}
      ensures Valid() && (currentMessage != null ==> currentMessage.ignore == old(currentMessage.ignore))
      ensures currentMessage != null ==> !currentMessage.paused
    {
      if currentMessage != null {
        currentMessage.paused := false;
      }
    }
  }
}
