/** What each event does, one branch of `Next` at a time, so that proofs can leave the others out. */
module ConnectionSteps {
  import opened Wrappers
  import opened ConnectionSpec

  // The user's calls.

  lemma {:induction false} CloseIs(c: Conn)
    ensures Next(c, UserClose) == GotoFinal(c)
  {
    hide GotoFinal;
  }

  lemma {:induction false} CancelIs(c: Conn)
    ensures Enabled(c, UserCancel) && Next(c, UserCancel) == CancelRequest(c)
  {
    hide CancelRequest;
  }

  lemma {:induction false} CancelLastIs(c: Conn)
    ensures Enabled(c, UserCancelLast) && Next(c, UserCancelLast) == CancelTheLast(c)
  {
    hide CancelTheLast;
  }

  lemma {:induction false} MakeRequestIs(c: Conn, q: Request)
    ensures Enabled(c, UserMakeRequest(q)) && Next(c, UserMakeRequest(q)) == MakeRequest(c, q)
  {
    hide MakeRequest;
  }

  lemma {:induction false} MakeIs(c: Conn, q: Request)
    requires c.state != LoggedIn
    ensures Next(c, UserMakeRequest(q)) == RunScript(TurnAway(c, q), q.callback)
  {
    assert Next(c, UserMakeRequest(q)) == MakeRequest(c, q);
    hide RunScript;
  }

  lemma {:induction false} NextTickIs(c: Conn)
    requires c.deferred != []
    ensures
      var q := c.deferred[0];
      Next(c, NextTick) == RunScript(Refuse(c.(deferred := c.deferred[1..]), q.id, ECANCEL), q.callback)
  {
    hide RunScript;
  }

  // Connecting and logging in.

  /** The events of connecting and logging in. */
  predicate OfConnecting(e: Event) {
    || e.ConnectDone? || e.ConnectFailed? || e.LookupFailed? || e.PreloginResponse? || e.TlsDone? || e.LoginResponse?
    || e.TokenArrives? || e.TokenFails? || e.InitialSqlDone?
  }

  lemma {:induction false} ConnectingIs(c: Conn, e: Event)
    requires Enabled(c, e) && OfConnecting(e)
    ensures Next(c, e) == OnConnecting(c, e)
  {
    hide OnConnecting;
  }

  lemma {:induction false} AttemptIs(c: Conn)
    ensures OnConnecting(c, ConnectDone) == Goto(c.(closed := false, attempt := false), SentPrelogin)
    ensures OnConnecting(c, ConnectFailed) == c.(attempt := false, connectTimer := false)
  {
    hide Goto;
  }

  lemma {:induction false} LookupIs(c: Conn, listener: Script)
    ensures OnConnecting(c, LookupFailed(listener)) == RunScript(c.(attempt := false, connectTimer := false), listener)
  {
    hide RunScript;
  }

  lemma {:induction false} PreloginIs(c: Conn, reply: PreloginReply, listener: Script)
    ensures OnConnecting(c, PreloginResponse(reply, listener)) ==
      match reply
      case Unencryptable => GotoFinal(RunScript(c, listener))
      case NeedsTls => Goto(c, SentTlsSslNegotiation)
      case Plain => Goto(c, LoginState(c.cfg))
  {
    hide GotoFinal, RunScript, Goto;
  }

  lemma {:induction false} TlsDoneIs(c: Conn)
    ensures OnConnecting(c, TlsDone) == Goto(c, LoginState(c.cfg))
  {
    hide Goto;
  }

  lemma {:induction false} LoginIs(c: Conn, reply: LoginReply, listener: Script)
    ensures OnConnecting(c, LoginResponse(reply, listener)) == OnLogin(c, reply, listener)
  {
    hide OnLogin;
  }

  lemma {:induction false} LoginResponseIs(c: Conn, reply: LoginReply, listener: Script)
    requires Enabled(c, LoginResponse(reply, listener))
    ensures Next(c, LoginResponse(reply, listener)) == OnLogin(c, reply, listener) && LoggingIn(c.state)
  {
    hide OnLogin;
  }

  lemma {:induction false} TokenArrivesIs(c: Conn)
    ensures OnConnecting(c, TokenArrives) == Goto(c.(token := false), SentLogin7WithStandardLogin)
  {
    hide Goto;
  }

  lemma {:induction false} TokenFailsIs(c: Conn, listener: Script)
    ensures OnConnecting(c, TokenFails(listener)) == GotoFinal(RunScript(c.(token := false), listener))
  {
    hide GotoFinal, RunScript;
  }

  lemma {:induction false} InitialSqlIs(c: Conn, listener: Script)
    ensures OnConnecting(c, InitialSqlDone(listener)) == RunScript(Goto(c, LoggedIn).(connectTimer := false), listener)
  {
    hide RunScript;
  }

  // The message of a request, and the response to it.

  /** The events of its message. */
  predicate OfSending(e: Event) {
    e.PayloadEnds? || e.PayloadBreaks? || e.PayloadErrorDelivered? || e.MessageFinished?
  }

  lemma {:induction false} SendingIs(c: Conn, e: Event)
    requires Enabled(c, e) && OfSending(e)
    ensures c.current.Some? && Next(c, e) == OnSending(c, e)
  {
    hide OnSending;
  }

  lemma {:induction false} PayloadErrorIs(c: Conn, e: Event, code: Code)
    requires Enabled(c, e) && ((e == PayloadBreaks && code == PayloadFailure) || (e == PayloadErrorDelivered && code == ECANCEL))
    ensures c.current.Some? && Next(c, e) == c.(current := Some(Failed(c.current.value, code)))
  {
    hide Failed;
  }

  lemma {:induction false} MessageFinishedIs(c: Conn)
    requires Enabled(c, MessageFinished)
    ensures At(c, SentClientRequest, Sending)
    ensures
      var cur := c.current.value;
      Next(c, MessageFinished) == Send(c, Message(cur.request.id, cur.cut)).(current := Some(cur.(phase := Sent)))
  {
    hide Send;
  }

  lemma {:induction false} AbandonedFinishedIs(c: Conn)
    requires Enabled(c, AbandonedFinished)
    ensures c.abandoned.Some? && c.abandoned.value.phase == Sending
    ensures Next(c, AbandonedFinished) == c.(abandoned := Some(c.abandoned.value.(phase := Sent)))
  {
  }

  lemma {:induction false} ResponseStartedIs(c: Conn)
    requires Enabled(c, ResponseStarted)
    ensures
      var m := c.(requestTimer := false);
      var cur := c.current.value;
      Next(c, ResponseStarted) ==
        if cur.canceled && c.cancelTimer != Unset then GotoAttention(m) else m.(current := Some(cur.(phase := Responding)))
    ensures At(c, SentClientRequest, Sent)
  {
    hide GotoAttention, CallBack;
  }

  lemma {:induction false} ErrorTokenIs(c: Conn)
    requires Enabled(c, ErrorToken)
    ensures c.current.Some?
    ensures
      var cur := c.current.value;
      Next(c, ErrorToken) == if cur.canceled then c else c.(current := Some(cur.(error := Some(EREQUEST))))
  {
    hide CallBack, GotoAttention;
  }

  lemma {:induction false} OnResponseIs(c: Conn, e: Event, x: Current)
    requires c.current.Some? && (e.ErrorToken? || e == AttentionResponse(false))
    requires
      var cur := c.current.value;
      x == if e.ErrorToken? then if cur.canceled then cur else cur.(error := Some(EREQUEST)) else cur.(phase := Deaf)
    ensures OnResponse(c, e) == c.(current := Some(x))
  {
    hide CallBack, GotoAttention;
  }

  lemma {:induction false} ResponseIs(c: Conn)
    requires Enabled(c, ResponseEnded)
    ensures
      var cur := c.current.value;
      Next(c, ResponseEnded) == CallBack(Goto(c, LoggedIn).(current := None), cur, cur.error, EndOfMessage)
    ensures c.current.Some?
  {
    hide CallBack;
  }

  lemma {:induction false} AttentionFacts(c: Conn, acknowledged: bool)
    requires Enabled(c, AttentionResponse(acknowledged))
    ensures c.current.Some?
  {
  }

  lemma {:induction false} AttentionIs(c: Conn)
    requires Enabled(c, AttentionResponse(true))
    ensures
      var cur := c.current.value;
      Next(c, AttentionResponse(true)) ==
        CallBack(Goto(c, LoggedIn).(current := None, cancelTimer := Unset), cur, Some(AcknowledgedWith(cur)), Acknowledged)
  {
    hide CallBack;
  }

  lemma {:induction false} UnacknowledgedIs(c: Conn)
    requires Enabled(c, AttentionResponse(false))
    ensures Next(c, AttentionResponse(false)) == c.(current := Some(c.current.value.(phase := Deaf)))
  {
    hide GotoAttention, CallBack;
  }

  // Timers and the socket.

  lemma {:induction false} ConnectTimerIs(c: Conn, listener: Script)
    requires Enabled(c, ConnectTimerFires(listener))
    ensures
      var n := RunScript(c.(attempt := false), listener).(connectTimer := false);
      Next(c, ConnectTimerFires(listener)) == Dispatch(n, OnConnectTimeout, ETIMEOUT)
  {
    hide Dispatch, RunScript;
  }

  lemma {:induction false} TimerArmed(c: Conn)
    requires Enabled(c, RequestTimerFires)
    ensures c.requestTimer
  {
  }

  lemma {:induction false} RequestTimerIs(c: Conn)
    requires c.requestTimer
    ensures
      var m := CancelRequest(c.(requestTimer := false));
      Next(c, RequestTimerFires) ==
        if m.current.None? then m.(log := m.log.(crashed := m.log.crashed + 1))
        else m.(current := Some(m.current.value.(error := Some(ETIMEOUT), timedOut := true)))
  {
    hide CancelRequest;
  }

  lemma {:induction false} CancelTimerIs(c: Conn)
    requires Enabled(c, CancelTimerFires)
    ensures Next(c, CancelTimerFires) == Dispatch(c.(cancelTimer := Fired), OnSocketError, CancelTimedOut)
  {
    hide Dispatch;
  }

  lemma {:induction false} RetryTimerIs(c: Conn, listener: Script)
    requires Enabled(c, RetryTimerFires(listener))
    ensures Next(c, RetryTimerFires(listener)) == GotoConnecting(RunScript(c.(retryTimer := false), listener))
  {
    hide RunScript, GotoConnecting;
  }

  lemma {:induction false} SocketErrorIs(c: Conn, listener: Script)
    requires Enabled(c, SocketError(listener))
    ensures Next(c, SocketError(listener)) == Dispatch(RunScript(c, listener), OnSocketError, SocketFailure)
  {
    hide RunScript, Dispatch;
  }

  lemma {:induction false} SocketEndIs(c: Conn, listener: Script)
    requires Enabled(c, SocketEnd(listener))
    ensures Next(c, SocketEnd(listener)) == if c.state == Final then c else Dispatch(RunScript(c, listener), OnSocketError, SocketFailure)
  {
    hide RunScript, Dispatch;
  }

  lemma {:induction false} SocketCloseDispatches(c: Conn)
    requires Enabled(c, SocketClose)
    ensures Next(c, SocketClose) ==
      if c.state == Rerouting then Dispatch(c, OnReconnect, SocketFailure)
      else if c.state == TransientFailureRetry then Dispatch(c, OnRetry, SocketFailure)
      else GotoFinal(c)
  {
    hide GotoFinal, Dispatch;
  }

  lemma {:induction false} SocketCloseIs(c: Conn)
    requires c.state != Initialized
    ensures Next(c, SocketClose) ==
      if c.state == Rerouting then GotoConnecting(c) else if c.state == TransientFailureRetry then c.(retryTimer := true) else GotoFinal(c)
  {
    hide GotoFinal, GotoConnecting;
  }
}
