/** What holds in every state that a run of events can reach. */
module ConnectionRuns {
  import opened Wrappers
  import opened ConnectionSpec
  import opened ConnectionSteps
  import opened ConnectionCallbacks
  import opened ConnectionInvariant
  import opened ConnectionPaths

  function Last(c: Conn): Completion
    requires c.log.completed != []
  {
    c.log.completed[|c.log.completed| - 1]
  }

  /**
   The requests accepted are those whose callbacks have been called, in order, and
   then the current one; and there is no current one when the connection is logged
   in again or has ended. A callback is called once more if and only if the request
   was closed while its response was being read, and had not been cancelled, by a
   callback that cancels it and closes after that; nothing can follow such a request.
   */
  lemma {:induction false} ExactlyOnce(c: Conn)
    requires Reachable(c)
    ensures c.log.accepted == Ids(c.log.completed) + (if c.current.Some? then [c.current.value.request.id] else [])
    ensures c.current.Some? ==> c.state in {SentClientRequest, SentAttention} && !c.closed
    ensures c.state in {LoggedIn, Final} ==> c.log.accepted == Ids(c.log.completed)
    ensures Ids(c.log.repeated) == if c.log.completed != [] && Repeats(Last(c)) then [Last(c).current.request.id] else []
    ensures forall i | 0 <= i < |c.log.completed| && Repeats(c.log.completed[i]) :: i == |c.log.completed| - 1
  {
    ReachableInv(c);
    hide CurrentOk, CompletionOk, CancelsThenCloses, AbandonedOk, TimersOk;
  }

  /**
   No event goes unhandled, and no connect timer or attempt is lost to another: what
   is armed has a handler in the present state. A handler misses its request at most
   once, and only if the last one was given up while its response was being read.
   */
  lemma {:induction false} NothingUnhandled(c: Conn)
    requires Reachable(c)
    ensures c.log.unhandled == 0 && c.log.overwritten == 0
    ensures c.connectTimer ==> Handles(c.state, OnConnectTimeout)
    ensures c.cancelTimer == Pending ==> Handles(c.state, OnSocketError)
    ensures c.requestTimer ==> c.state == SentClientRequest
    ensures c.retryTimer ==> c.state in {TransientFailureRetry, Final}
    ensures c.attempt ==> c.state in {Connecting, Final}
    ensures c.log.crashed <= 1
    ensures c.log.crashed == 1 || (InProgress(c.state) && c.current.None?) ==>
      c.log.completed != [] && GivenUp(Last(c)) && Reading(Last(c))
  {
    ReachableInv(c);
    hide HistoryOk, CompletionOk, CancelsThenCloses, SentFor, PayloadOk, CancelOk;
  }

  /**
   A request that asks for a timer has one armed from the moment it is made until its
   response starts or the timer has fired, and no other request has.
   */
  lemma {:induction false} RequestTimed(c: Conn)
    requires Reachable(c)
    ensures c.requestTimer <==>
      c.current.Some? && c.current.value.request.timed && c.current.value.phase in {Sending, Sent} && !c.current.value.timedOut
    ensures Enabled(c, RequestTimerFires) <==> c.requestTimer
  {
    ReachableInv(c);
    assert TimersOk(c);
    hide Inv, Reachable;
  }

  /** A request that completes leaves no timer behind that could hit the next one. */
  lemma {:induction false} NoStaleTimers(c: Conn)
    requires Reachable(c) && c.state == LoggedIn
    ensures !c.connectTimer && !c.requestTimer && !c.retryTimer && c.cancelTimer == Unset && !c.attempt
  {
    ReachableInv(c);
    hide HistoryOk, CompletionOk, CancelsThenCloses, CurrentOk;
  }

  /**
   What was sent for a request: nothing, or its message, and after that perhaps one
   attention. An attention is sent only for a cancelled request, and never for one
   whose cancel cut the message short; a cancelled request has had one or the other,
   unless its message had already been cut short by a failure of its own.
   */
  predicate OneOfTwo(sent: seq<OnWire>, cur: Current) {
    && (sent == [] || sent == [Message(cur.request.id, cur.cut)] || sent == [Message(cur.request.id, cur.cut), Attention(cur.request.id)])
    && (cur.attention <==> |sent| == 2)
    && (cur.attention ==> cur.canceled && !cur.cut.ByCancel?)
    && (cur.cut.ByCancel? ==> cur.canceled)
    && (cur.canceled ==> cur.attention || cur.cut != Uncut)
  }

  lemma {:induction false} RecordIsOneOfTwo(sent: seq<OnWire>, cur: Current)
    requires SentFor(sent, cur.request.id, cur.cut, cur.attention) && CancelOk(cur)
    ensures OneOfTwo(sent, cur)
  {
  }

  lemma {:induction false} CompletedIsOneOfTwo(c: Conn, i: nat)
    requires HistoryOk(c) && i < |c.log.completed|
    ensures i < |c.log.accepted| == |c.log.wire|
    ensures c.log.completed[i].current.request.id == c.log.accepted[i] && OneOfTwo(c.log.wire[i], c.log.completed[i].current)
  {
    assert c.log.accepted[i] == Ids(c.log.completed)[i];
    assert CompletionOk(c.cfg, c.log.completed[i], c.log.wire[i]);
    hide HistoryOk, OneOfTwo, SentFor, CancelOk;
    RecordIsOneOfTwo(c.log.wire[i], c.log.completed[i].current);
  }

  lemma {:induction false} CurrentIsOneOfTwo(c: Conn)
    requires RequestOk(c) && c.current.Some?
    ensures OneOfTwo(LastSent(c), c.current.value)
  {
    hide OneOfTwo, SentFor, CancelOk, PayloadOk;
    RecordIsOneOfTwo(LastSent(c), c.current.value);
  }

  lemma {:induction false} CancelIsOneOfTwo(c: Conn)
    requires Reachable(c)
    ensures |c.log.wire| == |c.log.accepted| == |c.log.completed| + if c.current.Some? then 1 else 0
    ensures forall i | 0 <= i < |c.log.completed| ::
      c.log.completed[i].current.request.id == c.log.accepted[i] && OneOfTwo(c.log.wire[i], c.log.completed[i].current)
    ensures c.current.Some? ==> OneOfTwo(LastSent(c), c.current.value)
  {
    ReachableInv(c);
    assert |c.log.wire| == |c.log.accepted| == |c.log.completed| + if c.current.Some? then 1 else 0 by {
      hide TimersOk, EndingOk, RequestOk, CompletionOk;
    }
    assert HistoryOk(c) && RequestOk(c);
    hide Inv, HistoryOk, RequestOk, OneOfTwo, Reachable;
    forall i | 0 <= i < |c.log.completed|
      ensures c.log.completed[i].current.request.id == c.log.accepted[i] && OneOfTwo(c.log.wire[i], c.log.completed[i].current)
    {
      CompletedIsOneOfTwo(c, i);
    }
    if c.current.Some? {
      CurrentIsOneOfTwo(c);
    }
  }

  /** While an attention is outstanding for a request it is the last one's, and the cancel timer runs. */
  lemma {:induction false} AttentionOutstanding(c: Conn)
    requires Reachable(c) && c.state == SentAttention && c.current.Some?
    ensures c.log.accepted != []
    ensures
      var id, sent := c.current.value.request.id, LastSent(c);
      c.log.accepted[|c.log.accepted| - 1] == id && |sent| == 2 && sent[1] == Attention(id)
    ensures c.cfg.cancelTimeout ==> c.cancelTimer == Pending
  {
    ReachableInv(c);
    hide TimersOk, EndingOk, PayloadOk, CompletionOk;
  }

  /** The cancel timer is the way out when no acknowledgement comes. */
  lemma {:induction false} CancelTimerEndsIt(c: Conn)
    requires Reachable(c) && c.state == SentAttention && c.current.Some? && c.cfg.cancelTimeout
    ensures Enabled(c, CancelTimerFires)
    ensures
      var r := Next(c, CancelTimerFires);
      r.closed && r.current.None? && r.log.completed == c.log.completed + [Completion(c.current.value, Some(CancelTimedOut), Lost)]
  {
    AttentionOutstanding(c);
    assert Enabled(c, CancelTimerFires);
    hide Inv, Next, Enabled, Reachable;
    ReachableInv(c);
    CancelTimerInv(c);
  }

  /**
   How every request comes out. One whose timer fired, and which is completed by the
   server, has ETIMEOUT, and one whose attention was acknowledged has ECANCEL. One that
   was cancelled, and is completed by its response all the same, has ECANCEL if and only
   if the cancel cut its message short while the payload was streaming and the payload
   has reported that in time; it has the error of the payload if that had failed before;
   and otherwise it comes out as a success. One that was not cancelled has the error of its
   payload, or none, unless the server reports another.
   */
  lemma {:induction false} TimeoutOutcome(c: Conn, i: nat)
    requires Reachable(c) && i < |c.log.completed|
    ensures
      var d := c.log.completed[i];
      var cur := d.current;
      match d.how
      case EndOfMessage =>
        && (cur.timedOut ==> d.outcome == Some(ETIMEOUT))
        && (cur.canceled && !cur.timedOut ==>
              && (d.outcome == Some(ECANCEL) <==> cur.cut == ByCancel(true) && cur.payload == Over)
              && (d.outcome == Some(PayloadFailure) <==> cur.cut == ByFailure)
              && d.outcome in {None, Some(ECANCEL), Some(PayloadFailure)})
        && (!cur.canceled ==> d.outcome == Some(EREQUEST) || d.outcome == if cur.cut == ByFailure then Some(PayloadFailure) else None)
      case Acknowledged => d.outcome == Some(if cur.timedOut then ETIMEOUT else ECANCEL)
      case Closed => d.outcome == Some(ECLOSE)
      case Lost => d.outcome in {Some(SocketFailure), Some(CancelTimedOut)}
  {
    ReachableInv(c);
    assert CompletionOk(c.cfg, c.log.completed[i], c.log.wire[i]) by {
      hide TimersOk, EndingOk, RequestOk, CompletionOk;
    }
    hide Inv, Reachable, SentFor;
  }

  /** An error that the server reports decides, whatever there was before, if the request is not cancelled. */
  lemma {:induction false} ErrorDecides(c: Conn)
    requires Reachable(c) && c.current.Some? && c.current.value.phase == Responding && !c.current.value.canceled
    ensures
      Enabled(c, ErrorToken)
      && var m := Next(c, ErrorToken);
      Enabled(m, ResponseEnded) && Completed(Next(m, ResponseEnded), |c.log.completed|, EndOfMessage, Some(EREQUEST))
  {
    ReachableInv(c);
    var cfg, n, cur := c.cfg, |c.log.completed|, c.current.value;
    ErrsNow(c, cfg, n, cur, c.cancelTimer);
    EndsNow(Next(c, ErrorToken), cfg, n, cur.(error := Some(EREQUEST)), c.cancelTimer);
    hide Inv, Next, Enabled, Reachable;
  }
}
