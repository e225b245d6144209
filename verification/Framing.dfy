/**
 The two streams together: what goes into the packetiser comes out of the
 receiver, whatever the chunks, the packet sizes and the pieces the network
 makes of the bytes.
 */
module Framing {
  import opened Wrappers
  import opened Bytes
  import opened Packet
  import Out = OutgoingMessageStream
  import In = IncomingMessageStream

  /** A message to send: its content in chunks, and the number of chunks after which it is cancelled, if it is. */
  datatype Outbound = Outbound(type_: byte, reset: bool, packetSize: nat, chunks: seq<seq<byte>>, cancelAfter: Option<nat>)
  {
    predicate Valid() {
      HEADER_LENGTH < packetSize <= MAX_PACKET && (cancelAfter.Some? ==> cancelAfter.value <= |chunks|)
    }

    /** The chunks that count: those before the cancellation. */
    function Content(): seq<byte>
      requires Valid()
    {
      if cancelAfter.Some? then Concat(chunks[..cancelAfter.value]) else Concat(chunks)
    }

    function Packets(): seq<seq<byte>>
      requires Valid()
    {
      Out.MessagePackets(type_, reset, cancelAfter.Some?, Content(), packetSize - HEADER_LENGTH)
    }
  }

  ghost predicate AllValid(messages: seq<Outbound>) {
    forall i | 0 <= i < |messages| :: messages[i].Valid()
  }

  /** The packets of each message, in order. */
  ghost function PacketLists(messages: seq<Outbound>): (lists: seq<seq<seq<byte>>>)
    requires AllValid(messages)
    ensures |lists| == |messages|
  {
    seq(|messages|, i requires 0 <= i < |messages| => messages[i].Packets())
  }

  /** All the packets that go out. */
  ghost function Wire(messages: seq<Outbound>): seq<seq<byte>>
    requires AllValid(messages)
  {
    Concat(PacketLists(messages))
  }

  ghost function Delivered(messages: seq<Outbound>): (views: seq<In.Incoming>)
    requires AllValid(messages)
    ensures |views| == |messages|
  {
    seq(|messages|, i requires 0 <= i < |messages| => In.Incoming(messages[i].type_, messages[i].Content()))
  }

  /** A receiver that gets these packets, with anything behind them, reads this message. */
  ghost predicate Carries(packets: seq<seq<byte>>, m: In.Incoming) {
    forall finished: seq<In.Incoming>, rest: seq<byte> ::
      In.Settle(In.Parse(finished, None, Concat(packets) + rest, false)) == In.Settle(In.Parse(finished + [m], None, rest, false))
  }

  // One packet, then one message, then all of them.

  lemma ReceiveOne(s: In.Parse, p: seq<byte>, rest: seq<byte>)
    requires WellFormed(p) && !s.failed && s.bytes == p + rest
    ensures In.PacketReady(s.bytes) && !In.BadHeader(s.bytes)
    ensures In.Settle(s) == In.Settle(In.TakePacket(s))
    ensures
      var message := if s.open.None? then In.Incoming(TypeOf(p), []) else s.open.value;
      var grown := message.(data := message.data + Data(p));
      In.TakePacket(s) ==
        if IsLast(p) then s.(finished := s.finished + [grown], open := None, bytes := rest)
        else s.(open := Some(grown), bytes := rest)
  {
    assert s.bytes[..|p|] == p && s.bytes[|p|..] == rest;
  }

  /** Receiving the packets of a message from the i-th on. */
  lemma {:induction false} ReceiveFrom(s: In.Parse, type_: byte, reset: bool, ignore: bool, data: seq<byte>, n: nat, i: nat, rest: seq<byte>)
    requires Out.ValidLength(n)
    requires i < |Out.Payloads(data, n)| && !s.failed
    requires s.open == if i == 0 then None else Some(In.Incoming(type_, Concat(Out.Payloads(data, n)[..i])))
    requires |Out.MessagePackets(type_, reset, ignore, data, n)| == |Out.Payloads(data, n)|
    requires s.bytes == Concat(Out.MessagePackets(type_, reset, ignore, data, n)[i..]) + rest
    ensures In.Settle(s) == In.Settle(s.(finished := s.finished + [In.Incoming(type_, data)], open := None, bytes := rest))
    decreases |Out.Payloads(data, n)| - i
  {
    hide In.Settle, In.TakePacket, Out.MessagePackets, Out.Payloads;
    var packets, payloads := Out.MessagePackets(type_, reset, ignore, data, n), Out.Payloads(data, n);
    Out.CanonicalPackets(type_, reset, ignore, data, n);
    assert packets[i..][1..] == packets[i + 1..];
    var later := Concat(packets[i + 1..]) + rest;
    assert s.bytes == packets[i] + later;
    assert Concat(payloads[..0]) == [];
    assert payloads[..i + 1] == payloads[..i] + [payloads[i]];
    ConcatOne(payloads[..i], payloads[i]);
    var last := i == |packets| - 1;
    SaysRead(packets[i], type_, i + 1, reset, last, last && ignore, payloads[i]);
    ReceiveOne(s, packets[i], later);
    if i == |packets| - 1 {
      assert payloads[..i + 1] == payloads;
      assert later == rest;
    } else {
      ReceiveFrom(In.TakePacket(s), type_, reset, ignore, data, n, i + 1, rest);
    }
  }

  lemma MessageCarried(m: Outbound)
    requires m.Valid()
    ensures Carries(m.Packets(), In.Incoming(m.type_, m.Content()))
  {
    var n := m.packetSize - HEADER_LENGTH;
    Out.CanonicalPackets(m.type_, m.reset, m.cancelAfter.Some?, m.Content(), n);
    assert m.Packets()[0..] == m.Packets();
    forall finished: seq<In.Incoming>, rest: seq<byte>
      ensures In.Settle(In.Parse(finished, None, Concat(m.Packets()) + rest, false))
           == In.Settle(In.Parse(finished + [In.Incoming(m.type_, m.Content())], None, rest, false))
    {
      var s := In.Parse(finished, None, Concat(m.Packets()) + rest, false);
      ReceiveFrom(s, m.type_, m.reset, m.cancelAfter.Some?, m.Content(), n, 0, rest);
    }
  }

  lemma ReceiveNext(finished: seq<In.Incoming>, packets: seq<seq<byte>>, m: In.Incoming, rest: seq<byte>)
    requires Carries(packets, m)
    ensures In.Settle(In.Parse(finished, None, Concat(packets) + rest, false)) == In.Settle(In.Parse(finished + [m], None, rest, false))
  {
  }

  lemma {:induction false} ReceiveAll(finished: seq<In.Incoming>, lists: seq<seq<seq<byte>>>, views: seq<In.Incoming>)
    requires |lists| == |views| && forall i | 0 <= i < |lists| :: Carries(lists[i], views[i])
    ensures In.Settle(In.Parse(finished, None, Concat(Concat(lists)), false)) == In.Parse(finished + views, None, [], false)
    decreases |lists|
  {
    if lists == [] {
      assert finished + views == finished;
    } else {
      var rest := Concat(lists[1..]);
      assert In.Settle(In.Parse(finished, None, Concat(Concat(lists)), false))
          == In.Settle(In.Parse(finished + [views[0]], None, Concat(rest), false)) by {
        ConcatAppend(lists[0], rest);
        ReceiveNext(finished, lists[0], views[0], Concat(rest));
      }
      var others := views[1..];
      assert forall i | 0 <= i < |others| :: Carries(lists[1..][i], others[i]) by {
        forall i | 0 <= i < |others| ensures Carries(lists[1..][i], others[i]) {
          assert Carries(lists[i + 1], views[i + 1]);
        }
      }
      ReceiveAll(finished + [views[0]], lists[1..], others);
      assert finished + [views[0]] + others == finished + views;
    }
  }

  /** All messages read from these bytes, if they end with one. */
  function Received(bytes: seq<byte>): Option<seq<In.Incoming>> {
    var s := In.Settle(In.Start(bytes));
    if s.failed || s.open.Some? || s.bytes != [] then None else Some(s.finished)
  }

  /**
   End to end, over every sequence of messages, every chunking, packet size,
   flag and cancellation point, and every way the bytes can be cut on the wire:
   the receiver reads exactly the messages sent, and nothing is left over.
   */
  lemma {:induction false} EndToEnd(messages: seq<Outbound>, pieces: seq<seq<byte>>)
    requires AllValid(messages) && Concat(pieces) == Concat(Wire(messages))
    ensures Received(Concat(pieces)) == Some(Delivered(messages))
  {
    forall i | 0 <= i < |messages|
      ensures Carries(PacketLists(messages)[i], Delivered(messages)[i])
    {
      MessageCarried(messages[i]);
    }
    ReceiveAll([], PacketLists(messages), Delivered(messages));
    assert [] + Delivered(messages) == Delivered(messages);
  }

  lemma WireAppend(messages: seq<Outbound>, k: nat)
    requires AllValid(messages) && k < |messages|
    ensures Wire(messages[..k + 1]) == Wire(messages[..k]) + messages[k].Packets()
  {
    assert PacketLists(messages[..k + 1]) == PacketLists(messages[..k]) + [messages[k].Packets()];
    ConcatOne(PacketLists(messages[..k]), messages[k].Packets());
  }

  /** Every packet but the last of a message has the packet size that was negotiated, and none is larger. */
  lemma {:induction false} PacketSizes(m: Outbound, i: nat)
    requires m.Valid() && i < |m.Packets()|
    ensures if i < |m.Packets()| - 1 then |m.Packets()[i]| == m.packetSize else 8 <= |m.Packets()[i]| <= m.packetSize
  {
    var n := m.packetSize - HEADER_LENGTH;
    hide Out.MessagePackets, Out.FullPayloads, Out.Remainder;
    Out.CanonicalPackets(m.type_, m.reset, m.cancelAfter.Some?, m.Content(), n);
    var payloads := Out.Payloads(m.Content(), n);
    assert |payloads[|payloads| - 1]| <= n;
  }

  // Packets from elsewhere. A server sets fields that the client leaves alone.

  /** Its length is right; the rest of the header may hold anything. */
  predicate AnyPacket(p: seq<byte>) {
    8 <= |p| <= 0xFFFF && p[2] as int * 256 + p[3] as int == |p|
  }

  predicate AnyPackets(packets: seq<seq<byte>>) {
    forall i | 0 <= i < |packets| :: AnyPacket(packets[i])
  }

  /** No whole packet, and nothing that could become one but for its beginning. */
  predicate NoPacket(tail: seq<byte>) {
    |tail| >= 8 ==> var n := tail[2] as int * 256 + tail[3] as int; n < 8 || n > |tail|
  }

  /** The message so far, with one more packet. */
  function Grown(p: seq<byte>, open: Option<In.Incoming>): In.Incoming
    requires AnyPacket(p)
  {
    if open.None? then In.Incoming(p[0], p[8..]) else open.value.(data := open.value.data + p[8..])
  }

  /** Packets put together: the first of a message says its type, and the lowest bit of the status ends it. */
  function Grouped(packets: seq<seq<byte>>, open: Option<In.Incoming>): (seq<In.Incoming>, Option<In.Incoming>)
    requires AnyPackets(packets)
  {
    if packets == [] then ([], open)
    else
      var grown := Grown(packets[0], open);
      if packets[0][1] % 2 == 0 then Grouped(packets[1..], Some(grown))
      else
        var (messages, last) := Grouped(packets[1..], None);
        ([grown] + messages, last)
  }

  /** The rest is not read, or is refused. */
  predicate Refused(tail: seq<byte>) {
    |tail| >= 8 && tail[2] as int * 256 + tail[3] as int < 8
  }

  lemma {:induction false} ReadRest(s: In.Parse)
    requires !s.failed && NoPacket(s.bytes)
    ensures In.Settle(s) == s.(failed := Refused(s.bytes))
  {
  }

  lemma {:induction false} ReadOne(s: In.Parse, p: seq<byte>, rest: seq<byte>)
    requires !s.failed && AnyPacket(p) && s.bytes == p + rest
    ensures
      var grown := Grown(p, s.open);
      In.Settle(s) == In.Settle(
        if p[1] % 2 == 1 then s.(finished := s.finished + [grown], open := None, bytes := rest)
        else s.(open := Some(grown), bytes := rest))
  {
    hide In.Settle, In.TakePacket;
    ReceiveOne(s, p, rest);
    assert [] + Data(p) == p[8..];
  }

  lemma {:induction false} ReadGrouped(s: In.Parse, packets: seq<seq<byte>>, tail: seq<byte>)
    requires !s.failed && AnyPackets(packets) && NoPacket(tail) && s.bytes == Concat(packets) + tail
    ensures
      var (messages, open) := Grouped(packets, s.open);
      In.Settle(s) == In.Parse(s.finished + messages, open, tail, Refused(tail))
    decreases |packets|
  {
    hide In.Settle, Grown, Refused, NoPacket, AnyPacket;
    if packets == [] {
      assert s.bytes == tail && s.finished + [] == s.finished;
      ReadRest(s);
    } else {
      var p, rest := packets[0], packets[1..];
      var bytes := Concat(rest) + tail;
      assert s.bytes == p + bytes;
      assert AnyPacket(p) && |p| >= 8 by {
        WholePacket(packets);
      }
      ReadOne(s, p, bytes);
      var grown := Grown(p, s.open);
      if p[1] % 2 == 1 {
        ReadGrouped(s.(finished := s.finished + [grown], open := None, bytes := bytes), rest, tail);
        var (messages, _) := Grouped(rest, None);
        assert s.finished + [grown] + messages == s.finished + ([grown] + messages);
      } else {
        ReadGrouped(s.(open := Some(grown), bytes := bytes), rest, tail);
      }
    }
  }

  lemma {:induction false} WholePacket(packets: seq<seq<byte>>)
    requires AnyPackets(packets) && packets != []
    ensures AnyPacket(packets[0]) && |packets[0]| >= 8 && AnyPackets(packets[1..])
  {
  }

  /**
   Any packets, with whatever status bits, process id, packet id and window, and any
   bytes behind them that are not one: the packets are read as they are grouped, the
   rest is kept, and reading fails if and only if the rest has a length that is too small.
   */
  lemma {:induction false} ReadsAnyPackets(packets: seq<seq<byte>>, tail: seq<byte>)
    requires AnyPackets(packets) && NoPacket(tail)
    ensures
      var (messages, open) := Grouped(packets, None);
      In.Settle(In.Start(Concat(packets) + tail)) == In.Parse(messages, open, tail, Refused(tail))
  {
    ReadGrouped(In.Start(Concat(packets) + tail), packets, tail);
    var (messages, _) := Grouped(packets, None);
    assert [] + messages == messages;
  }

  /** Any bytes at all are packets and a rest of this kind. */
  lemma {:induction false} AnyBytes(bytes: seq<byte>) returns (packets: seq<seq<byte>>, tail: seq<byte>)
    ensures bytes == Concat(packets) + tail && AnyPackets(packets) && NoPacket(tail)
    decreases |bytes|
  {
    if NoPacket(bytes) {
      packets, tail := [], bytes;
    } else {
      var n := bytes[2] as int * 256 + bytes[3] as int;
      packets, tail := AnyBytes(bytes[n..]);
      assert bytes == bytes[..n] + bytes[n..];
      assert AnyPacket(bytes[..n]);
      ghost var rest := packets;
      packets := [bytes[..n]] + rest;
      assert packets[1..] == rest;
    }
  }

  // The same over the two stream objects, with all their suspensions.

  method SendMessage(out: Out.OutgoingMessageStream, m: Outbound)
    requires out.Valid() && out.currentMessage == null && m.Valid()
    modifies out
    ensures out.Valid() && out.currentMessage == null && out.bl == []
    ensures out.output == old(out.output) + m.Packets()
  {
    hide Out.MessagePackets, Out.FullPayloads, Out.Remainder, Out.MiddlePackets;
    out.SetPacketSize(m.packetSize);
    var message := new Out.Message(m.type_, m.reset);
    out.Write(message);
    ghost var cut := if m.cancelAfter.Some? then m.cancelAfter.value else |m.chunks|;
    assert m.chunks[..0] == [];
    for i := 0 to |m.chunks|
      invariant out.Valid() && out.currentMessage == message && out.length == m.packetSize - HEADER_LENGTH
      invariant message.ignore == (m.cancelAfter.Some? && m.cancelAfter.value < i)
      invariant out.accepted == Concat(m.chunks[..if i < cut then i else cut])
      invariant out.mark == |old(out.output)| && out.output[..out.mark] == old(out.output)
    {
      if m.cancelAfter == Some(i) {
        message.ignore := true;
      }
      if i < cut {
        assert m.chunks[..i + 1] == m.chunks[..i] + [m.chunks[i]];
        ConcatOne(m.chunks[..i], m.chunks[i]);
      }
      out.OnData(m.chunks[i]);
      if message.paused {
        out.Read();
      }
    }
    if m.cancelAfter == Some(|m.chunks|) {
      message.ignore := true;
    }
    assert m.chunks[..|m.chunks|] == m.chunks;
    out.OnEnd();
  }

  method Deliver(incoming: In.IncomingMessageStream, piece: seq<byte>)
    requires incoming.Valid() && incoming.resume == In.Running && !incoming.failed
    modifies incoming
    ensures incoming.Valid() && incoming.resume == In.Running
    ensures incoming.received == old(incoming.received) + piece
    ensures incoming.transforms == old(incoming.transforms) + 1 && incoming.callbacks == incoming.transforms
  {
    incoming.Transform(piece);
    while incoming.resume != In.Running
      invariant incoming.Valid()
      invariant incoming.received == old(incoming.received) + piece
      invariant incoming.transforms == old(incoming.transforms) + 1
      decreases |incoming.bl|, incoming.resume != In.Running
    {
      if incoming.resume == In.OnEnd {
        incoming.OnMessageEnd();
      } else {
        incoming.OnMessageDrain();
      }
    }
  }

  /** If all the bytes are read without an error, then so is every part of them that has arrived. */
  lemma {:induction false} NeverFails(pieces: seq<seq<byte>>, k: nat)
    requires k <= |pieces|
    requires !In.Settle(In.Start(Concat(pieces))).failed
    ensures !In.Settle(In.Start(Concat(pieces[..k]))).failed
  {
    var early, late := Concat(pieces[..k]), Concat(pieces[k..]);
    ConcatAppend(pieces[..k], pieces[k..]);
    assert pieces == pieces[..k] + pieces[k..];
    assert In.Append(In.Start(early), late) == In.Start(Concat(pieces));
    In.SettleAppend(In.Start(early), late);
  }

  method SendAll(messages: seq<Outbound>) returns (out: Out.OutgoingMessageStream)
    requires AllValid(messages)
    ensures fresh(out) && out.Valid() && out.output == Wire(messages)
  {
    out := new Out.OutgoingMessageStream(HEADER_LENGTH + 1);
    for i := 0 to |messages|
      invariant out.Valid() && out.currentMessage == null && fresh(out)
      invariant out.output == Wire(messages[..i])
    {
      WireAppend(messages, i);
      SendMessage(out, messages[i]);
    }
    assert messages[..|messages|] == messages;
  }

  method ReceivePieces(pieces: seq<seq<byte>>) returns (incoming: In.IncomingMessageStream)
    requires !In.Settle(In.Start(Concat(pieces))).failed
    ensures fresh(incoming) && incoming.Valid() && incoming.resume == In.Running
    ensures incoming.received == Concat(pieces)
  {
    incoming := new In.IncomingMessageStream();
    for i := 0 to |pieces|
      invariant incoming.Valid() && incoming.resume == In.Running && !incoming.failed && fresh(incoming)
      invariant incoming.received == Concat(pieces[..i])
    {
      assert pieces[..i + 1] == pieces[..i] + [pieces[i]];
      ConcatOne(pieces[..i], pieces[i]);
      Deliver(incoming, pieces[i]);
      NeverFails(pieces, i + 1);
    }
    assert pieces[..|pieces|] == pieces;
  }

  /** Sends everything, lets `cut` choose the pieces, and receives them. */
  method Transfer(messages: seq<Outbound>, cut: seq<byte> -> seq<seq<byte>>) returns (received: seq<In.Incoming>)
    requires AllValid(messages)
    requires forall bytes :: Concat(cut(bytes)) == bytes
    ensures received == Delivered(messages)
  {
    var out := SendAll(messages);
    var pieces := cut(Concat(out.output));
    EndToEnd(messages, pieces);
    var incoming := ReceivePieces(pieces);
    assert incoming.State() == In.Settle(In.Start(Concat(pieces)));
    received := In.Views(incoming.messages);
  }
}
