/**
 The receiver: packets arrive in pieces of any size and are put together into
 messages. The loop over the buffered bytes suspends while a message is being
 read to its end, or while one has too much data buffered.
 */
module IncomingMessageStream {
  import opened Wrappers
  import opened Bytes
  import opened Packet

  datatype Incoming = Incoming(type_: byte, data: seq<byte>)

  /** The finished messages, the unfinished one if there is one, and the bytes not looked at yet. */
  datatype Parse = Parse(finished: seq<Incoming>, open: Option<Incoming>, bytes: seq<byte>, failed: bool)

  /** A length field below the header's own length cannot be right. */
  predicate BadHeader(bytes: seq<byte>) {
    |bytes| >= HEADER_LENGTH && ReadUInt16BE(bytes, 2) < HEADER_LENGTH
  }

  predicate PacketReady(bytes: seq<byte>) {
    |bytes| >= HEADER_LENGTH && HEADER_LENGTH <= ReadUInt16BE(bytes, 2) <= |bytes|
  }

  function PacketLength(bytes: seq<byte>): (n: nat)
    requires PacketReady(bytes)
    ensures HEADER_LENGTH <= n <= |bytes|
    ensures WellFormed(bytes[..n])
  {
    ReadUInt16BE(bytes, 2)
  }

  /** What one whole packet does. */
  function TakePacket(s: Parse): (r: Parse)
    requires PacketReady(s.bytes)
    ensures |r.bytes| + HEADER_LENGTH <= |s.bytes|
  {
    var n := PacketLength(s.bytes);
    var packet := s.bytes[..n];
    var message := if s.open.None? then Incoming(TypeOf(packet), []) else s.open.value;
    var grown := message.(data := message.data + Data(packet));
    var rest := s.(bytes := s.bytes[n..]);
    if IsLast(packet) then rest.(finished := s.finished + [grown], open := None)
    else rest.(open := Some(grown))
  }

  /** Reads until there is no whole packet left, with nothing to wait for in between. */
  function Settle(s: Parse): Parse
    decreases |s.bytes|
  {
    if s.failed then s
    else if BadHeader(s.bytes) then s.(failed := true)
    else if PacketReady(s.bytes) then Settle(TakePacket(s))
    else s
  }

  function Start(bytes: seq<byte>): Parse {
    Parse([], None, bytes, false)
  }

  function Append(s: Parse, chunk: seq<byte>): Parse {
    s.(bytes := s.bytes + chunk)
  }

  /** Bytes that come later change nothing about what was read before them. */
  lemma {:induction false} SettleAppend(s: Parse, chunk: seq<byte>)
    ensures !Settle(s).failed ==> Settle(Append(s, chunk)) == Settle(Append(Settle(s), chunk))
    ensures Settle(s).failed ==> Settle(Append(s, chunk)) == Append(Settle(s), chunk)
    decreases |s.bytes|
  {
    if !s.failed && !BadHeader(s.bytes) && PacketReady(s.bytes) {
      var n := PacketLength(s.bytes);
      assert (s.bytes + chunk)[..n] == s.bytes[..n];
      assert (s.bytes + chunk)[n..] == s.bytes[n..] + chunk;
      assert TakePacket(Append(s, chunk)) == Append(TakePacket(s), chunk);
      SettleAppend(TakePacket(s), chunk);
    }
  }

  /** A message as the consumer holds it: it grows until it has ended. */
  datatype InMessage = InMessage(type_: byte, data: seq<byte>, ended: bool) {
    function View(): Incoming {
      Incoming(type_, data)
    }
  }

  /** What the loop is waiting for before it may go on. */
  datatype Resume = Running | OnEnd | OnDrain

  function Views(messages: seq<InMessage>): (views: seq<Incoming>)
    ensures |views| == |messages|
  {
    seq(|messages|, i requires 0 <= i < |messages| => messages[i].View())
  }

  class IncomingMessageStream {
    var bl: seq<byte>
    // Every message pushed to the consumer, and the index of the current one.
    var messages: seq<InMessage>
    var currentMessage: Option<nat>
    var resume: Resume
    var failed: bool

    // Chunks handed over and callbacks called for them; all the bytes handed over.
    ghost var transforms: nat
    ghost var callbacks: nat
    ghost var received: seq<byte>

    /** The state of the loop, with a message that has ended counted as finished. */
    ghost function State(): Parse
      reads this
      requires currentMessage.Some? ==> messages != []
    {
      if currentMessage.Some? && resume != OnEnd then
        var last := |messages| - 1;
        Parse(Views(messages[..last]), Some(messages[last].View()), bl, failed)
      else
        Parse(Views(messages), None, bl, failed)
    }

    ghost predicate Valid()
      reads this
    {
      && (currentMessage.Some? ==> 0 <= currentMessage.value == |messages| - 1)
      && (currentMessage.Some? <== resume != Running)
      && (forall i | 0 <= i < |messages| :: messages[i].ended <==> !(currentMessage == Some(i) && resume != OnEnd))
      && transforms == callbacks + (if resume == Running then 0 else 1)
      && (failed ==> resume == Running)
      && Settle(State()) == Settle(Start(received))
      && (resume == Running ==> Settle(State()) == State())
    }

    constructor ()
      ensures Valid() && resume == Running && !failed && bl == [] && messages == [] && received == []
      ensures transforms == 0 && callbacks == 0
    {
      bl, messages, currentMessage := [], [], None;
      resume, failed := Running, false;
      transforms, callbacks, received := 0, 0, [];
    }

    /** A loop that is running, and has not called back yet. */
    ghost predicate Consistent()
      reads this
    {
      && resume == Running && !failed
      && (currentMessage.Some? ==> 0 <= currentMessage.value == |messages| - 1)
      && (forall i | 0 <= i < |messages| :: messages[i].ended <==> currentMessage != Some(i))
      && transforms == callbacks + 1
    }

    /** Such a loop, on the way to the same end as one that had all the bytes from the start. */
    ghost predicate Looping()
      reads this
    {
      Consistent() && Settle(State()) == Settle(Start(received))
    }

    /** The body of the loop for a whole packet. */
    method ReceivePacket(length: nat)
      requires Consistent() && PacketReady(bl) && length == ReadUInt16BE(bl, 2)
      modifies this`bl, this`messages, this`currentMessage, this`resume
      ensures (currentMessage.Some? ==> 0 <= currentMessage.value == |messages| - 1)
      ensures (forall i | 0 <= i < |messages| :: messages[i].ended <==> !(currentMessage == Some(i) && resume != OnEnd))
      ensures currentMessage.Some? <== resume != Running
      ensures State() == TakePacket(old(State()))
    {
      hide HasFlag, Data, TypeOf;
      var packet := bl[..length];
      bl := bl[length..];
      if currentMessage == None {
        OpenMessage(TypeOf(packet));
      }
      AddToMessage(Data(packet), IsLast(packet));
    }

    method OpenMessage(type_: byte)
      requires Consistent() && currentMessage == None
      modifies this`messages, this`currentMessage
      ensures Consistent() && currentMessage.Some?
      ensures State() == old(State()).(open := Some(Incoming(type_, [])))
    {
      currentMessage := Some(|messages|);
      messages := messages + [InMessage(type_, [], false)];
      assert messages[..|messages| - 1] == old(messages);
    }

    /** The data of a packet is written to the message, or ends it. */
    method AddToMessage(data: seq<byte>, last: bool)
      requires Consistent() && currentMessage.Some?
      modifies this`messages, this`resume
      ensures |messages| == old(|messages|)
      ensures (forall i | 0 <= i < |messages| :: messages[i].ended <==> !(currentMessage == Some(i) && resume != OnEnd))
      ensures
        var s := old(State());
        var grown := s.open.value.(data := s.open.value.data + data);
        State() == if last then s.(finished := s.finished + [grown], open := None) else s.(open := Some(grown))
    {
      var index := currentMessage.value;
      ghost var others := messages[..index];
      var grown := messages[index].(data := messages[index].data + data);
      if last {
        messages := messages[index := grown.(ended := true)];
        resume := OnEnd;
        assert messages == others + [messages[index]];
        assert Views(messages) == Views(others) + [messages[index].View()];
      } else {
        messages := messages[index := grown];
        assert messages[..index] == others;
        if * {
          resume := OnDrain;  // the message has too much data buffered
        }
      }
    }

    /** The loop itself: it ends with the chunk's callback called, or suspended. */
    method ProcessBufferedData()
      requires Looping()
      modifies this`bl, this`messages, this`currentMessage, this`resume, this`failed, this`callbacks
      ensures Valid()
      ensures |bl| <= old(|bl|) && (resume != Running ==> |bl| < old(|bl|))
    {
      hide TakePacket, Views;
      while |bl| >= HEADER_LENGTH
        invariant Looping() && |bl| <= old(|bl|)
        decreases |bl|
      {
        var length := ReadUInt16BE(bl, 2);
        if length < HEADER_LENGTH {
          failed := true;
          callbacks := callbacks + 1;  // called with an error
          return;
        }
        if |bl| >= length {
          ReceivePacket(length);
          if resume != Running {
            return;
          }
        } else {
          break;
        }
      }
      callbacks := callbacks + 1;
    }

    /** The stream machinery hands over a chunk only after the callback for the one before it. */
    method Transform(chunk: seq<byte>)
      requires Valid() && resume == Running && !failed
      modifies this
      ensures Valid() && received == old(received) + chunk && transforms == old(transforms) + 1
    {
      hide Settle, TakePacket, Views;
      SettleAppend(State(), chunk);
      SettleAppend(Start(received), chunk);
      assert Append(Start(received), chunk) == Start(received + chunk);
      bl := bl + chunk;
      transforms, received := transforms + 1, received + chunk;
      ProcessBufferedData();
    }

    /** The consumer has read the current message to its end. */
    method OnMessageEnd()
      requires Valid() && resume == OnEnd
      modifies this`bl, this`messages, this`currentMessage, this`resume, this`failed, this`callbacks
      ensures Valid()
      ensures |bl| <= old(|bl|) && (resume != Running ==> |bl| < old(|bl|))
    {
      resume := Running;
      currentMessage := None;
      ProcessBufferedData();
    }

    /** The current message has room again. */
    method OnMessageDrain()
      requires Valid() && resume == OnDrain
      modifies this`bl, this`messages, this`currentMessage, this`resume, this`failed, this`callbacks
      ensures Valid()
      ensures |bl| <= old(|bl|) && (resume != Running ==> |bl| < old(|bl|))
    {
      resume := Running;
      ProcessBufferedData();
    }
  }
}
