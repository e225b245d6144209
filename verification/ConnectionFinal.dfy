/** What can still come of a connection that has ended, or is closed. */
module ConnectionFinal {
  import opened Wrappers
  import opened ConnectionSpec
  import opened ConnectionSteps
  import opened ConnectionCallbacks
  import opened ConnectionInvariant
  import opened ConnectionPaths

  /** A request that was given up, and whose cancelling would lead back to waiting for an attention. */
  predicate Wakeable(abandoned: Option<Current>) {
    abandoned.Some? && abandoned.value.phase == Responding && !abandoned.value.canceled
  }

  /** Whatever comes. */
  ghost predicate StaysFinal(c: Conn) {
    forall es | EnabledRun(c, es) :: Run(c, es).state == Final
  }

  /** What leads from the final state to where another connection is made, or an attention awaited. */
  predicate Revives(c: Conn) {
    c.retryTimer || c.attempt || Wakeable(c.abandoned)
  }

  /** The ways out of the final state. */
  predicate Reopens(c: Conn) {
    Revives(c) || c.token
  }

  /**
   A connection with nothing ahead that could make it useful again: it has ended, or a
   security token that came after the end has put it back to logging in, over a socket
   that is gone.
   */
  predicate Spent(c: Conn) {
    && c.closed && c.current.None? && c.state in {Final, SentLogin7WithStandardLogin} && !Revives(c)
    && (c.state != Final ==> !c.token) && (c.state != Final || c.token ==> c.abandoned.None?)
  }

  /** Nothing is recorded any more, and only a token leads out of the final state. */
  predicate Rests(c: Conn, r: Conn) {
    Spent(r) && r.log == c.log && (c.state == Final && !c.token ==> r.state == Final && !r.token)
  }

  lemma {:induction false} SpentClose(c: Conn)
    requires Spent(c)
    ensures Rests(c, GotoFinal(c))
  {
    hide RunScript;
  }

  lemma {:induction false} SpentCancel(c: Conn)
    requires Spent(c)
    ensures Rests(c, CancelTheLast(c)) && CancelRequest(c) == c
  {
    if c.abandoned.Some? {
      GoneStep(c);
      assert CancelTheLast(c) == CancelAbandoned(c);
      hide Told, CutShort, Attended;
    }
  }

  lemma {:induction false} SpentAct(c: Conn, a: Action)
    requires Spent(c)
    ensures Rests(c, Act(c, a))
    decreases a
  {
    Acts(c, a, Nothing);
    SpentCancel(c);
    SpentClose(c);
    assert c.state != LoggedIn;
    hide RunScript, Act, GotoFinal, CancelRequest, CancelTheLast;
    if a.Make? {
      SpentScript(TurnAway(c, a.request), a.request.callback);
    }
  }

  lemma {:induction false} SpentScript(c: Conn, s: Script)
    requires Spent(c)
    ensures Rests(c, RunScript(c, s))
    decreases s
  {
    hide Act, Revives;
    if s.Do? {
      SpentAct(c, s.action);
      SpentScript(Act(c, s.action), s.rest);
    }
  }

  /** What dispatching does then. */
  lemma {:induction false} SpentDispatch(c: Conn, n: Name, code: Code)
    requires Spent(c) && n in {OnSocketError, OnConnectTimeout}
    ensures Dispatch(c, n, code) == GotoFinal(c) && Rests(c, GotoFinal(c))
  {
    SpentClose(c);
    hide GotoFinal, Rests;
  }

  lemma {:induction false} SpentTimers(c: Conn, e: Event)
    requires Spent(c) && Enabled(c, e) && (e.ConnectTimerFires? || e.CancelTimerFires? || e.SocketError? || e.SocketEnd?)
    ensures Rests(c, Next(c, e))
  {
    match e
    case ConnectTimerFires(listener) =>
      ConnectTimerIs(c, listener);
      hide RunScript, Dispatch, Next, Enabled, GotoFinal;
      SpentScript(c.(attempt := false), listener);
      SpentDispatch(RunScript(c.(attempt := false), listener).(connectTimer := false), OnConnectTimeout, ETIMEOUT);
    case CancelTimerFires =>
      CancelTimerIs(c);
      hide Dispatch, Next, Enabled, GotoFinal;
      SpentDispatch(c.(cancelTimer := Fired), OnSocketError, CancelTimedOut);
    case SocketError(listener) =>
      hide RunScript, Dispatch, GotoFinal;
      SpentScript(c, listener);
      SpentDispatch(RunScript(c, listener), OnSocketError, SocketFailure);
    case SocketEnd(listener) =>
      hide RunScript, Dispatch, GotoFinal;
      SpentScript(c, listener);
      SpentDispatch(RunScript(c, listener), OnSocketError, SocketFailure);
  }

  lemma {:induction false} SpentUser(c: Conn, e: Event)
    requires Spent(c) && Enabled(c, e)
    requires e.UserConnect? || e.UserClose? || e.UserCancel? || e.UserCancelLast? || e.UserMakeRequest? || e.NextTick?
    ensures Rests(c, Next(c, e))
  {
    match e
    case UserMakeRequest(q) =>
      MakeIs(c, q);
      hide RunScript, Next;
      SpentScript(TurnAway(c, q), q.callback);
    case NextTick =>
      NextTickIs(c);
      assert c.deferred != [];
      hide RunScript, Next;
      var q := c.deferred[0];
      SpentScript(Refuse(c.(deferred := c.deferred[1..]), q.id, ECANCEL), q.callback);
    case _ =>
      SpentCancel(c);
      SpentClose(c);
      hide RunScript, GotoFinal, CancelTheLast, CancelRequest;
  }

  /** What is left to happen. */
  lemma {:induction false} SpentOther(c: Conn, e: Event)
    requires Spent(c) && Enabled(c, e) && !c.requestTimer
    requires !(e.UserConnect? || e.UserClose? || e.UserCancel? || e.UserCancelLast? || e.UserMakeRequest? || e.NextTick?)
    requires !(e.ConnectTimerFires? || e.CancelTimerFires? || e.SocketError? || e.SocketEnd?)
    ensures Rests(c, Next(c, e))
  {
    assert e.SocketClose? || e.AbandonedFinished? || e.TokenArrives? || e.TokenFails?;
    hide Enabled;
    if e.TokenFails? {
      var m := c.(token := false);
      SpentScript(m, e.listener);
      SpentClose(RunScript(m, e.listener));
      hide RunScript, GotoFinal;
    } else {
      SpentClose(c);
      hide RunScript, GotoFinal;
    }
  }

  lemma {:induction false} SpentStep(c: Conn, e: Event)
    requires Inv(c) && Spent(c) && Enabled(c, e)
    ensures Rests(c, Next(c, e))
  {
    NoRequestFacts(c);
    assert c.current.None?;
    hide Inv, Next, Enabled, Spent, Rests;
    if e.UserConnect? || e.UserClose? || e.UserCancel? || e.UserCancelLast? || e.UserMakeRequest? || e.NextTick? {
      SpentUser(c, e);
    } else if e.ConnectTimerFires? || e.CancelTimerFires? || e.SocketError? || e.SocketEnd? {
      SpentTimers(c, e);
    } else {
      SpentOther(c, e);
    }
  }

  lemma {:induction false} SpentStays(c: Conn, es: seq<Event>)
    requires Inv(c) && Spent(c) && EnabledRun(c, es)
    ensures Rests(c, Run(c, es))
    decreases |es|
  {
    hide Inv, Next, Enabled, Revives;
    if es != [] {
      NextInv(c, es[0]);
      SpentStep(c, es[0]);
      SpentStays(Next(c, es[0]), es[1..]);
    }
  }

  /** One event leads out, for each of the ways. */
  function WayOut(c: Conn): Event {
    if c.retryTimer then RetryTimerFires(Nothing) else if c.attempt then ConnectDone else if c.token then TokenArrives else UserCancelLast
  }

  lemma {:induction false} ReopensNow(c: Conn)
    requires Inv(c) && c.state == Final && Reopens(c)
    ensures Enabled(c, WayOut(c)) && Next(c, WayOut(c)).state != Final
  {
    NoRequestFacts(c);
    FinalFacts(c);
    var e := WayOut(c);
    if c.retryTimer {
      assert Enabled(c, e);
      RetryTimerIs(c, Nothing);
      hide Inv, Next, Enabled;
      assert RunScript(c.(retryTimer := false), Nothing) == c.(retryTimer := false);
    } else if c.attempt || c.token {
      hide Inv, RunScript, CancelTheLast;
    } else {
      CancelLastIs(c);
      hide Inv, Next, Enabled;
      WakesUp(c);
    }
  }

  lemma {:induction false} WakesUp(c: Conn)
    requires Gone(c) && Wakeable(c.abandoned)
    ensures CancelTheLast(c).state == SentAttention
  {
    hide Told, Canceled;
  }

  /**
   A connection that has ended stays so if and only if no retry is due, no connection
   attempt is under way, no security token is waited for, and its last request was not
   given up while its response was being read, or has been cancelled since.
   */
  lemma {:induction false} FinalIsFinal(c: Conn)
    requires Reachable(c) && c.state == Final
    ensures StaysFinal(c) <==> !Reopens(c)
  {
    ReachableInv(c);
    if Reopens(c) {
      ReopensNow(c);
      hide Inv, Next, Enabled, Reopens;
      var e := WayOut(c);
      assert EnabledRun(Next(c, e), []);
      StepRun(c, e, []);
      assert EnabledRun(c, [e] + []) && Run(c, [e] + []).state != Final;
    } else {
      FinalFacts(c);
      hide Inv, Next, Enabled, Revives;
      forall es | EnabledRun(c, es) ensures Run(c, es).state == Final {
        SpentStays(c, es);
      }
    }
  }

  lemma {:induction false} FinalFacts(c: Conn)
    requires Inv(c) && c.state == Final
    ensures Gone(c)
  {
    hide HistoryOk, EndingOk, TimersOk, CurrentOk;
  }

  // A handler that misses its request.

  predicate Crashed(c: Conn) {
    c.log.crashed > 0
  }

  ghost predicate CanCrash(c: Conn) {
    Can(c, Crashed)
  }

  lemma {:induction false} CrashNext(c: Conn, e: Event)
    requires Enabled(c, e) && (Crashed(Next(c, e)) || CanCrash(Next(c, e)))
    ensures CanCrash(c)
  {
    hide Next, Enabled, Can, Crashed;
    if Crashed(Next(c, e)) {
      CanNow(Next(c, e), Crashed);
    }
    CanNext(c, e, Crashed);
  }

  /** Waiting for an attention without a request: the next socket error finds none. */
  lemma {:induction false} WaitingCrashes(c: Conn)
    requires Inv(c) && c.state == SentAttention && c.current.None?
    ensures CanCrash(c)
  {
    CrashInv(c, SocketFailure);
    WaitingIs(c);
    hide Inv, Next, LoseRequest, Enabled;
    CrashNext(c, SocketError(Nothing));
  }

  lemma {:induction false} WaitingIs(c: Conn)
    requires c.state == SentAttention
    ensures Enabled(c, SocketError(Nothing)) && Next(c, SocketError(Nothing)) == LoseRequest(c, SocketFailure)
  {
    hide LoseRequest;
    assert RunScript(c, Nothing) == c;
  }

  lemma {:induction false} WakeableCrashes(c: Conn)
    requires Inv(c) && c.state == Final && Wakeable(c.abandoned)
    ensures CanCrash(c)
  {
    var e := UserCancelLast;
    CancelLastIs(c);
    hide Next, Enabled;
    FinalFacts(c);
    GoneStep(c);
    WakesUp(c);
    hide Inv, CancelTheLast;
    NextInv(c, e);
    WaitingCrashes(Next(c, e));
    CrashNext(c, e);
  }

  /** Closing while a response is being read. */
  lemma {:induction false} RespondingCrashes(c: Conn)
    requires Inv(c) && c.current.Some? && c.current.value.phase == Responding && !c.current.value.canceled
    requires c.current.value.request.callback == Nothing
    ensures CanCrash(c)
  {
    CloseEnds(c);
    CloseInv(c);
    var r := GotoFinal(c);
    assert r.state == Final && Wakeable(r.abandoned) by {
      CloseUntouched(c);
    }
    CloseIs(c);
    UserEnabled(c);
    hide Inv, Next, Enabled, GotoFinal, Ends;
    WakeableCrashes(r);
    CrashNext(c, UserClose);
  }

  lemma {:induction false} CloseUntouched(c: Conn)
    requires Inv(c) && c.current.Some? && c.current.value.request.callback == Nothing
    ensures GotoFinal(c).state == Final && GotoFinal(c).abandoned == c.current
  {
    CloseReached(c);
    assert RunScript(ClosingConn(c), Nothing) == ClosingConn(c);
    hide Inv, RunScript, GotoFinal;
  }

  lemma {:induction false} LoggedInCrashes(c: Conn)
    requires Inv(c) && c.state == LoggedIn
    ensures CanCrash(c)
  {
    hide Inv, Next, Enabled, Leads, Can;
    var r := Responds(c, Request(0, false, false, Nothing));
    RespondingCrashes(r);
    CanFrom(c, r, Crashed);
  }

  /** From the prelogin on to being logged in. */
  lemma {:induction false} LoggedInOn(c: Conn)
    requires c.state == SentPrelogin && !c.closed && !c.token
    ensures
      var e1 := PreloginResponse(PreloginReply.Plain, Nothing);
      && Enabled(c, e1)
      && var c1 := Next(c, e1);
      && var e2 := LoginResponse(Ack, Nothing);
      && Enabled(c1, e2)
      && var c2 := Next(c1, e2);
      && Enabled(c2, InitialSqlDone(Nothing)) && Next(c2, InitialSqlDone(Nothing)).state == LoggedIn
  {
    var c1 := Next(c, PreloginResponse(PreloginReply.Plain, Nothing));
    assert c1.state == LoginState(c.cfg);
    var c2 := Next(c1, LoginResponse(Ack, Nothing));
    assert c2.state == LoggedInSendingInitialSql;
    assert RunScript(Goto(c2, LoggedIn).(connectTimer := false), Nothing).state == LoggedIn;
  }

  lemma {:induction false} PreloginCrashes(c: Conn)
    requires Inv(c) && c.state == SentPrelogin
    ensures CanCrash(c)
  {
    SocketOpen(c);
    hide Inv, Next, CanCrash, Enabled;
    LoggedInOn(c);
    var e1, e2, e3 := PreloginResponse(PreloginReply.Plain, Nothing), LoginResponse(Ack, Nothing), InitialSqlDone(Nothing);
    NextInv(c, e1);
    var c1 := Next(c, e1);
    NextInv(c1, e2);
    var c2 := Next(c1, e2);
    NextInv(c2, e3);
    LoggedInCrashes(Next(c2, e3));
    CrashNext(c2, e3);
    CrashNext(c1, e2);
    CrashNext(c, e1);
  }

  lemma {:induction false} AttemptCrashes(c: Conn)
    requires Inv(c) && c.attempt
    ensures CanCrash(c)
  {
    assert Enabled(c, ConnectDone) && Next(c, ConnectDone).state == SentPrelogin;
    hide Inv, Next, CanCrash, Enabled;
    NextInv(c, ConnectDone);
    PreloginCrashes(Next(c, ConnectDone));
    CrashNext(c, ConnectDone);
  }

  lemma {:induction false} RetryStarts(c: Conn)
    requires Inv(c) && c.retryTimer
    ensures Enabled(c, RetryTimerFires(Nothing)) && Next(c, RetryTimerFires(Nothing)).attempt
  {
    TimerState(c);
    RetryTimerIs(c, Nothing);
    hide Inv, Next;
    assert RunScript(c.(retryTimer := false), Nothing) == c.(retryTimer := false);
  }

  lemma {:induction false} RetryCrashes(c: Conn)
    requires Inv(c) && c.retryTimer
    ensures CanCrash(c)
  {
    var e := RetryTimerFires(Nothing);
    RetryStarts(c);
    hide Inv, Next, CanCrash, Enabled;
    NextInv(c, e);
    AttemptCrashes(Next(c, e));
    CrashNext(c, e);
  }

  ghost predicate CanMiss(c: Conn) {
    exists es :: EnabledRun(c, es) && Run(c, es).log.crashed > c.log.crashed
  }

  lemma {:induction false} NotMissedYet(c: Conn)
    requires Inv(c) && Revives(c)
    ensures c.log.crashed == 0
  {
    NoRequestFacts(c);
    hide HistoryOk, RequestOk, TimersOk, Repeats;
  }

  /**
   From a connection that has ended, a handler can still miss its request if and only if
   there is a way out, other than by a token: over a socket that is gone nothing comes of that.
   */
  lemma {:induction false} MissesItsRequest(c: Conn)
    requires Reachable(c) && c.state == Final
    ensures CanMiss(c) <==> Revives(c)
  {
    ReachableInv(c);
    FinalFacts(c);
    NoRequestFacts(c);
    if Revives(c) {
      NotMissedYet(c);
      hide Inv, Next, Enabled;
      if c.retryTimer {
        RetryCrashes(c);
      } else if c.attempt {
        AttemptCrashes(c);
      } else {
        WakeableCrashes(c);
      }
    } else {
      hide Inv, Next, Enabled, Revives;
      forall es | EnabledRun(c, es) ensures Run(c, es).log.crashed == c.log.crashed {
        SpentStays(c, es);
      }
    }
  }

  // Closing.

  /** What closing can leave behind. */
  predicate LeftOpen(c: Conn) {
    || c.retryTimer || c.attempt || c.token || Wakeable(c.abandoned)
    || (Wakeable(c.current) && !CancelsThenCloses(c.current.value.request.callback))
  }

  /** Closing calls nothing off: a connection that the user closes is closed for good if and only if nothing was pending. */
  lemma {:induction false} CloseIsFinal(c: Conn)
    requires Reachable(c)
    ensures
      var d := Next(c, UserClose);
      StaysFinal(d) <==> !LeftOpen(c)
  {
    ReachableInv(c);
    CloseIs(c);
    UserEnabled(c);
    hide Inv, Next, GotoFinal, LeftOpen, Reopens, Reachable, Enabled, StaysFinal;
    ReachableNext(c, UserClose);
    CloseLeaves(c);
    var d := Next(c, UserClose);
    if d.state == Final {
      FinalIsFinal(d);
    } else {
      NotFinal(d);
    }
  }

  lemma {:induction false} NotFinal(c: Conn)
    ensures StaysFinal(c) ==> c.state == Final
  {
    assert EnabledRun(c, []) && Run(c, []) == c;
  }

  lemma {:induction false} CloseLeaves(c: Conn)
    requires Inv(c)
    ensures var d := GotoFinal(c); LeftOpen(c) <==> d.state != Final || Reopens(d)
  {
    NoRequestFacts(c);
    TimerState(c);
    if c.current.Some? {
      CurrentFacts(c);
      CloseLeavesBusy(c);
    } else {
      assert Wakeable(c.abandoned) ==> c.state == Final by {
        hide HistoryOk, TimersOk, RequestOk, Repeats;
      }
      assert c.retryTimer ==> c.closed by {
        hide HistoryOk, EndingOk, RequestOk;
      }
      hide Inv, RunScript, CancelsThenCloses;
    }
  }

  lemma {:induction false} CloseLeavesBusy(c: Conn)
    requires Inv(c) && c.current.Some?
    ensures var d := GotoFinal(c); LeftOpen(c) <==> d.state != Final || Reopens(d)
  {
    CurrentFacts(c);
    NoRequestFacts(c);
    CloseReached(c);
    var m, s := ClosingConn(c), c.current.value.request.callback;
    CancelsThenClosesDoesBoth(s);
    var called := RunScript(m, s);
    hide Inv, RunScript, GotoFinal, Cancels, CancelsThenCloses, Cancelable, Closing;
    if c.current.value.canceled {
      QuietScript(m, s);
    } else {
      ClosingScript(m, s);
      CancelClosed(m);
      hide CancelRequest;
    }
  }

  /** Closing while a retry is due leaves its timer armed, because the connection counts as closed already. */
  lemma {:induction false} CloseKeepsRetryTimer(c: Conn)
    requires Reachable(c) && c.state == TransientFailureRetry
    ensures
      var r := Next(Next(c, SocketClose), UserClose);
      r.state == Final && r.retryTimer
  {
    ReachableInv(c);
    assert c.closed by {
      hide HistoryOk, EndingOk, RequestOk, TimersOk;
    }
    hide Inv, Reachable, Next, Enabled, RunScript, Called, Ended, Ending, Weight;
    assert Enabled(c, SocketClose) by {
      SocketCanClose(c);
    }
    SocketCloseIs(c);
    CloseIs(Next(c, SocketClose));
  }

  lemma {:induction false} SocketCanClose(c: Conn)
    requires c.state != Initialized
    ensures Enabled(c, SocketClose)
  {
  }

  /** Closing does not call off a connection attempt: one that is under way opens the connection again if it succeeds. */
  lemma {:induction false} LateConnectReopens(c: Conn)
    requires Reachable(c)
    ensures
      var d := Next(c, UserClose);
      && (Enabled(d, ConnectDone) <==> c.attempt)
      && (c.attempt ==> d.state == Final && Next(d, ConnectDone).state == SentPrelogin && !Next(d, ConnectDone).closed)
  {
    ReachableInv(c);
    CloseIs(c);
    NoRequestFacts(c);
    CloseAttempt(c);
    hide Inv, Reachable, GotoFinal;
  }

  lemma {:induction false} CloseAttempt(c: Conn)
    requires Inv(c)
    ensures GotoFinal(c).attempt == c.attempt && (c.attempt ==> GotoFinal(c).state == Final)
  {
    if c.current.Some? {
      CloseEnds(c);
      NoRequestFacts(c);
      assert !c.attempt by {
        CurrentFacts(c);
        hide HistoryOk, EndingOk, CurrentOk, SocketFlag;
      }
      hide Inv, GotoFinal, Repeats;
    } else {
      assert c.state == Final ==> c.closed by {
        hide HistoryOk, EndingOk, TimersOk, RequestOk;
      }
      FinalIdleIs(c);
      hide Inv, GotoFinal;
    }
  }

  /** A connect timeout ends the connection and calls the attempt off: for good, if and only if no token is waited for. */
  lemma {:induction false} ConnectTimeoutIsFinal(c: Conn, listener: Script)
    requires Reachable(c) && c.connectTimer
    ensures
      var d := Next(c, ConnectTimerFires(listener));
      && d.state == Final && d.closed && !d.attempt && !d.connectTimer && d.token == c.token
      && (StaysFinal(d) <==> !c.token)
  {
    var e := ConnectTimerFires(listener);
    ReachableInv(c);
    assert Enabled(c, e);
    hide Inv, Next, Enabled, StaysFinal, Reachable;
    TimedOutState(c, listener);
    ReachableNext(c, e);
    FinalIsFinal(Next(c, e));
  }

  lemma {:induction false} TimedOutState(c: Conn, listener: Script)
    requires Inv(c) && c.connectTimer
    ensures
      var d := Next(c, ConnectTimerFires(listener));
      && d.state == Final && d.closed && !d.attempt && !d.connectTimer && d.token == c.token && !d.retryTimer && d.abandoned.None?
  {
    NoRequestFacts(c);
    TimerState(c);
    ConnectTimerIs(c, listener);
    var m := c.(attempt := false);
    AttemptOverInv(c, c.connectTimer);
    NotIdle(m);
    ListenerInv(m, listener);
    var n := RunScript(m, listener);
    ListenerState(m, n, listener);
    AttemptOverInv(n, false);
    var x := n.(attempt := false, connectTimer := false);
    FinalIdleInv(x);
    FinalIdleIs(x);
    hide Inv, Next, Enabled, RunScript, GotoFinal, Idle, Like, Closes;
    assert Dispatch(x, OnConnectTimeout, ETIMEOUT) == GotoFinal(x);
  }

  /** A retry that falls due starts another attempt, whatever is done by those who are told of it: closing then is too late. */
  lemma {:induction false} RetryWhatever(c: Conn, listener: Script)
    requires Reachable(c) && c.retryTimer
    ensures
      var d := Next(c, RetryTimerFires(listener));
      Enabled(c, RetryTimerFires(listener)) && d.state == Connecting && d.attempt && d.connectTimer && !d.retryTimer
  {
    ReachableInv(c);
    assert Enabled(c, RetryTimerFires(listener));
    hide Inv, Next, RunScript, Reachable, Enabled;
    NoRequestFacts(c);
    TimerState(c);
    RetryTimerIs(c, listener);
    var m := c.(retryTimer := false);
    RetriedInv(c);
    NotIdle(m);
    hide Idle, Like, Closes, AfterIdle;
    ListenerInv(m, listener);
    ListenerState(m, RunScript(m, listener), listener);
    StartsAttempt(RunScript(m, listener));
  }

  lemma {:induction false} StartsAttempt(c: Conn)
    requires c.state in {TransientFailureRetry, Final}
    ensures var d := GotoConnecting(c); d.state == Connecting && d.attempt && d.connectTimer && d.retryTimer == c.retryTimer
  {
  }
}
