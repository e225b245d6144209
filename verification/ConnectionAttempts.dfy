/** How a connection comes about: retries, the timers of connecting, and the states there are. */
module ConnectionAttempts {
  import opened Wrappers
  import opened ConnectionSpec
  import opened ConnectionSteps
  import opened ConnectionCallbacks
  import opened ConnectionInvariant
  import opened ConnectionPaths

  // Retries.

  /** A transient failure of the login that the server reports. */
  predicate Fails(e: Event) {
    e.LoginResponse? && e.login == LoginError(true)
  }

  /** No retry is counted, and none begun. */
  predicate NoRetry(c: Conn, r: Conn) {
    r.retries == c.retries && (r.state == TransientFailureRetry ==> c.state == TransientFailureRetry)
  }

  lemma {:induction false} FramedNoRetry(c: Conn, r: Conn)
    requires Framed(c, r)
    ensures NoRetry(c, r)
  {
  }

  lemma {:induction false} NoRetryIs(c: Conn, r: Conn)
    requires r.retries == c.retries && (r.state == c.state || r.state != TransientFailureRetry)
    ensures NoRetry(c, r)
  {
  }

  lemma {:induction false} NoRetryBoth(a: Conn, b: Conn, c: Conn)
    requires NoRetry(a, b) && NoRetry(b, c)
    ensures NoRetry(a, c)
  {
  }

  lemma {:induction false} ScriptNoRetry(c: Conn, m: Conn, s: Script)
    requires NoRetry(c, m)
    ensures NoRetry(c, RunScript(m, s)) && NoRetry(c, GotoFinal(RunScript(m, s)))
  {
    ScriptFramed(m, s);
    FramedNoRetry(m, RunScript(m, s));
    CloseFramed(RunScript(m, s));
    FramedNoRetry(RunScript(m, s), GotoFinal(RunScript(m, s)));
    hide RunScript, GotoFinal, Framed;
  }

  lemma {:induction false} CloseNoRetry(c: Conn, m: Conn)
    requires NoRetry(c, m)
    ensures NoRetry(c, GotoFinal(m))
  {
    CloseFramed(m);
    FramedNoRetry(m, GotoFinal(m));
    hide GotoFinal, Framed;
  }

  lemma {:induction false} LoseNoRetry(c: Conn, code: Code)
    ensures NoRetry(c, LoseRequest(c, code))
  {
    CloseNoRetry(c, Abandon(c));
    var f := GotoFinal(Abandon(c));
    if c.current.Some? {
      CompletedNoRetry(f, c.current.value, Some(code), Lost);
      ScriptNoRetry(c, Complete(f, c.current.value, Some(code), Lost), c.current.value.request.callback);
    }
    hide GotoFinal, RunScript, Complete, Abandon;
  }

  lemma {:induction false} CompletedNoRetry(c: Conn, cur: Current, outcome: Option<Code>, how: How)
    ensures NoRetry(c, Complete(c, cur, outcome, how))
  {
  }

  lemma {:induction false} DispatchNoRetry(c: Conn, m: Conn, n: Name, code: Code)
    requires NoRetry(c, m)
    ensures NoRetry(c, Dispatch(m, n, code))
  {
    var u := m.(log := m.log.(unhandled := m.log.unhandled + 1));
    GoneConnecting(m);
    hide GotoFinal, LoseRequest, GotoConnecting, Handles;
    if !Handles(m.state, n) {
      CloseNoRetry(c, u);
    } else if n == OnSocketError {
      LoseNoRetry(m, code);
      CloseNoRetry(c, m);
    } else {
      CloseNoRetry(c, m);
    }
  }

  lemma {:induction false} LoginNoRetry(c: Conn, reply: LoginReply, listener: Script)
    requires reply != LoginError(true)
    ensures NoRetry(c, OnLogin(c, reply, listener))
  {
    ScriptNoRetry(c, c, listener);
    ScriptNoRetry(c, ClearTimers(Goto(c, Rerouting)), listener);
    hide GotoFinal, RunScript;
  }

  lemma {:induction false} PreloginNoRetry(c: Conn, reply: PreloginReply, listener: Script)
    ensures NoRetry(c, OnConnecting(c, PreloginResponse(reply, listener)))
  {
    PreloginIs(c, reply, listener);
    ScriptNoRetry(c, c, listener);
    hide RunScript, GotoFinal, OnConnecting;
  }

  /** The events that nobody is told of. */
  lemma {:induction false} QuietlyNoRetry(c: Conn, e: Event)
    requires e.ConnectDone? || e.ConnectFailed? || e.TlsDone? || e.TokenArrives?
    ensures NoRetry(c, OnConnecting(c, e))
  {
    AttemptIs(c);
    TlsDoneIs(c);
    TokenArrivesIs(c);
    hide OnConnecting;
  }

  lemma {:induction false} ConnectingNoRetry(c: Conn, e: Event)
    requires OfConnecting(e) && !Fails(e)
    ensures NoRetry(c, OnConnecting(c, e))
  {
    hide RunScript, GotoFinal, OnLogin, OnConnecting, NoRetry;
    if e.LookupFailed? {
      LookupIs(c, e.listener);
      var m := c.(attempt := false, connectTimer := false);
      assert NoRetry(c, m) by {
        NoRetryIs(c, m);
      }
      ScriptNoRetry(c, m, e.listener);
    } else if e.PreloginResponse? {
      PreloginNoRetry(c, e.prelogin, e.listener);
    } else if e.LoginResponse? {
      LoginIs(c, e.login, e.listener);
      LoginNoRetry(c, e.login, e.listener);
    } else if e.TokenFails? {
      TokenFailsIs(c, e.listener);
      var m := c.(token := false);
      assert NoRetry(c, m) by {
        NoRetryIs(c, m);
      }
      ScriptNoRetry(c, m, e.listener);
    } else if e.InitialSqlDone? {
      InitialSqlIs(c, e.listener);
      var m := Goto(c, LoggedIn).(connectTimer := false);
      assert NoRetry(c, m) by {
        NoRetryIs(c, m);
      }
      ScriptNoRetry(c, m, e.listener);
    } else {
      QuietlyNoRetry(c, e);
    }
  }

  lemma {:induction false} CallBackNoRetry(c: Conn, m: Conn, cur: Current, outcome: Option<Code>, how: How)
    requires NoRetry(c, m)
    ensures NoRetry(c, CallBack(m, cur, outcome, how))
  {
    CompletedNoRetry(m, cur, outcome, how);
    ScriptNoRetry(c, Complete(m, cur, outcome, how), cur.request.callback);
    hide RunScript, Complete, GotoFinal;
  }

  lemma {:induction false} ResponseNoRetry(c: Conn, e: Event)
    requires c.current.Some?
    ensures NoRetry(c, OnResponse(c, e))
  {
    var cur := c.current.value;
    var m := Goto(c, LoggedIn).(current := None);
    CallBackNoRetry(c, m, cur, cur.error, EndOfMessage);
    CallBackNoRetry(c, m.(cancelTimer := Unset), cur, Some(AcknowledgedWith(cur)), Acknowledged);
    hide CallBack, AcknowledgedWith;
  }

  lemma {:induction false} UserNoRetry(c: Conn, e: Event)
    requires Enabled(c, e)
    requires e.UserConnect? || e.UserClose? || e.UserCancel? || e.UserCancelLast? || e.UserMakeRequest? || e.NextTick?
    ensures NoRetry(c, Next(c, e))
  {
    hide RunScript, GotoFinal, CancelRequest, CancelTheLast, MakeRequest;
    match e
    case UserConnect =>
    case UserClose => CloseNoRetry(c, c);
    case UserCancel => CancelFramed(c);
    case UserCancelLast => CancelFramed(c);
    case UserMakeRequest(q) =>
      ActFramed(c, Make(q));
      assert Act(c, Make(q)) == MakeRequest(c, q);
    case NextTick =>
      var q := c.deferred[0];
      ScriptNoRetry(c, Refuse(c.(deferred := c.deferred[1..]), q.id, ECANCEL), q.callback);
  }

  lemma {:induction false} TimerNoRetry(c: Conn, e: Event)
    requires Enabled(c, e) && (e.ConnectTimerFires? || e.RequestTimerFires? || e.CancelTimerFires? || e.RetryTimerFires?)
    ensures NoRetry(c, Next(c, e))
  {
    hide RunScript, Dispatch, GotoFinal, CancelRequest, GotoConnecting, Next, Enabled;
    match e
    case ConnectTimerFires(listener) =>
      ConnectTimerIs(c, listener);
      var m := c.(attempt := false);
      ScriptNoRetry(c, m, listener);
      DispatchNoRetry(c, RunScript(m, listener).(connectTimer := false), OnConnectTimeout, ETIMEOUT);
    case RequestTimerFires =>
      TimerArmed(c);
      RequestTimerIs(c);
      CancelFramed(c.(requestTimer := false));
    case CancelTimerFires =>
      CancelTimerIs(c);
      DispatchNoRetry(c, c.(cancelTimer := Fired), OnSocketError, CancelTimedOut);
    case RetryTimerFires(listener) =>
      RetryTimerIs(c, listener);
      ScriptNoRetry(c, c.(retryTimer := false), listener);
      GoneConnecting(RunScript(c.(retryTimer := false), listener));
  }

  lemma {:induction false} GoneConnecting(c: Conn)
    ensures NoRetry(c, GotoConnecting(c))
  {
  }

  lemma {:induction false} SocketNoRetry(c: Conn, e: Event)
    requires Enabled(c, e) && (e.SocketError? || e.SocketEnd? || e.SocketClose?)
    ensures NoRetry(c, Next(c, e))
  {
    hide RunScript, Dispatch, GotoFinal;
    match e
    case SocketClose =>
      DispatchNoRetry(c, c, OnReconnect, SocketFailure);
      DispatchNoRetry(c, c, OnRetry, SocketFailure);
      CloseNoRetry(c, c);
    case SocketError(listener) =>
      ScriptNoRetry(c, c, listener);
      DispatchNoRetry(c, RunScript(c, listener), OnSocketError, SocketFailure);
    case SocketEnd(listener) =>
      ScriptNoRetry(c, c, listener);
      DispatchNoRetry(c, RunScript(c, listener), OnSocketError, SocketFailure);
  }

  lemma {:induction false} OtherNoRetry(c: Conn, e: Event)
    requires Enabled(c, e) && !Fails(e)
    ensures NoRetry(c, Next(c, e))
  {
    if e.UserConnect? || e.UserClose? || e.UserCancel? || e.UserCancelLast? || e.UserMakeRequest? || e.NextTick? {
      UserNoRetry(c, e);
    } else if e.ConnectTimerFires? || e.RequestTimerFires? || e.CancelTimerFires? || e.RetryTimerFires? {
      TimerNoRetry(c, e);
    } else if e.SocketError? || e.SocketEnd? || e.SocketClose? {
      SocketNoRetry(c, e);
    } else if e.ResponseStarted? || e.ErrorToken? || e.ResponseEnded? || e.AttentionResponse? {
      ResponseNoRetry(c, e);
      hide OnResponse;
    } else if e.PayloadEnds? || e.PayloadBreaks? || e.PayloadErrorDelivered? || e.MessageFinished? || e.AbandonedFinished? {
    } else {
      ConnectingNoRetry(c, e);
      ConnectingIs(c, e);
      hide OnConnecting, Next, Enabled;
    }
  }

  /** A transient failure leads to a retry, which is counted, as long as there is one left; after that the connection ends. */
  lemma {:induction false} FailureRetries(c: Conn, e: Event)
    requires Inv(c) && Enabled(c, e) && Fails(e)
    ensures
      var r := Next(c, e);
      if c.retries != c.cfg.maxRetries then r.state == TransientFailureRetry && r.retries == c.retries + 1
      else r.state == Final && r.retries == c.retries
  {
    LoginResponseIs(c, LoginError(true), e.listener);
    assert !c.closed;
    NoRequestFacts(c);
    hide Next, Enabled, Inv;
    if c.retries != c.cfg.maxRetries {
      var m := Goto(c.(retries := c.retries + 1), TransientFailureRetry);
      assert RunScript(ClearTimers(m), Nothing) == ClearTimers(m);
      hide RunScript, GotoFinal;
    } else {
      ListenerInv(c, e.listener);
      FinalIdleInv(RunScript(c, e.listener));
      ScriptNoRetry(c, c, e.listener);
      hide RunScript, GotoFinal;
    }
  }

  /** The retries of a run, told from its states. */
  function RetriesOf(c: Conn, es: seq<Event>): nat
    requires EnabledRun(c, es)
    decreases |es|
  {
    if es == [] then 0
    else
      var r := Next(c, es[0]);
      (if c.state != TransientFailureRetry && r.state == TransientFailureRetry then 1 else 0) + RetriesOf(r, es[1..])
  }

  lemma {:induction false} RetriesCountedFrom(c: Conn, es: seq<Event>)
    requires Inv(c) && EnabledRun(c, es)
    ensures Run(c, es).retries == c.retries + RetriesOf(c, es)
    decreases |es|
  {
    hide Inv, Next, Enabled, Fails, NoRetry;
    if es != [] {
      NextInv(c, es[0]);
      OneRetry(c, es[0]);
      RetriesCountedFrom(Next(c, es[0]), es[1..]);
    }
  }

  lemma {:induction false} OneRetry(c: Conn, e: Event)
    requires Inv(c) && Enabled(c, e)
    ensures
      var r := Next(c, e);
      r.retries == c.retries + if c.state != TransientFailureRetry && r.state == TransientFailureRetry then 1 else 0
  {
    if Fails(e) {
      assert c.state != TransientFailureRetry;
      FailureRetries(c, e);
    } else {
      OtherNoRetry(c, e);
    }
    hide Next, Enabled, Inv;
  }

  /** Over every run the retries are counted, and there are no more of them than configured. */
  lemma {:induction false} RetriesBounded(cfg: Config, es: seq<Event>)
    requires EnabledRun(Start(cfg), es)
    ensures RetriesOf(Start(cfg), es) == Run(Start(cfg), es).retries <= cfg.maxRetries
  {
    StartInv(cfg);
    RetriesCountedFrom(Start(cfg), es);
    RunInv(Start(cfg), es);
    hide Next, Enabled;
  }

  /**
   A transient failure leads to a retry, as long as there is one left; after that the
   connection ends. Nothing else leads there.
   */
  lemma {:induction false} RetriesExactly(c: Conn, e: Event)
    requires Reachable(c) && Enabled(c, e) && c.state != TransientFailureRetry
    ensures Next(c, e).state == TransientFailureRetry <==> Fails(e) && c.retries < c.cfg.maxRetries
    ensures Fails(e) && c.retries == c.cfg.maxRetries ==> Next(c, e).state == Final
  {
    ReachableInv(c);
    assert c.retries <= c.cfg.maxRetries;
    hide Inv, Next, Enabled, Reachable;
    if Fails(e) {
      FailureRetries(c, e);
    } else {
      OtherNoRetry(c, e);
    }
  }

  // The connect timer.

  /** An attempt in CONNECTING has its timer. */
  lemma {:induction false} ConnectTimerArmed(c: Conn)
    requires Reachable(c) && c.state == Connecting && c.attempt
    ensures c.connectTimer && Enabled(c, ConnectTimerFires(Nothing))
  {
    ReachableInv(c);
    hide HistoryOk, EndingOk, RequestOk;
  }

  /** It is still armed, or the connection has gone back to the start of an attempt, or ended. */
  predicate Kept(r: Conn) {
    r.connectTimer || r.state in {Final, Rerouting, TransientFailureRetry}
  }

  /** A connection that is getting connected. */
  ghost predicate Under(c: Conn) {
    Inv(c) && c.connectTimer && Idle(c) && NoRequest(c) && c.state != Initialized && !c.retryTimer && !c.requestTimer && c.cancelTimer == Unset
    && c.state !in {Rerouting, TransientFailureRetry, LoggedIn, SentClientRequest, SentAttention}
  }

  lemma {:induction false} UnderWay(c: Conn)
    requires Inv(c) && c.connectTimer
    ensures Under(c)
  {
    NoRequestFacts(c);
    TimerState(c);
    assert c.state !in {Initialized, Rerouting, TransientFailureRetry, LoggedIn, SentClientRequest, SentAttention} by {
      hide HistoryOk, EndingOk, RequestOk;
    }
    NotIdle(c);
    hide Inv;
  }

  lemma {:induction false} Listened(c: Conn, m: Conn, s: Script)
    requires Under(c) && Alike(m, c)
    ensures var r := RunScript(m, s); Kept(r) && (r.state == c.state || r.state == Final) && GotoFinal(r).state == Final && r.current.None?
  {
    LikeInv(m, c);
    NotIdle(m);
    ListenerInv(m, s);
    ListenerState(m, RunScript(m, s), s);
    FinalIdleInv(RunScript(m, s));
    hide Inv, RunScript, GotoFinal, Like, Closes;
  }

  lemma {:induction false} KeptByUser(c: Conn, e: Event)
    requires Under(c) && Enabled(c, e)
    requires e.UserConnect? || e.UserClose? || e.UserCancel? || e.UserCancelLast? || e.UserMakeRequest? || e.NextTick?
    ensures Kept(Next(c, e))
  {
    hide RunScript, GotoFinal, MakeRequest, Inv;
    match e
    case UserMakeRequest(q) =>
      MakeIs(c, q);
      Listened(c, TurnAway(c, q), q.callback);
      hide Next;
    case NextTick =>
      NextTickIs(c);
      var q := c.deferred[0];
      Listened(c, Refuse(c.(deferred := c.deferred[1..]), q.id, ECANCEL), q.callback);
      hide Next;
    case UserClose =>
      CloseIs(c);
      FinalIdleInv(c);
      hide Next;
    case _ => IdleCancel(c);
  }

  lemma {:induction false} KeptByLogin(c: Conn, reply: LoginReply, listener: Script)
    requires Under(c) && !c.closed
    ensures Kept(OnLogin(c, reply, listener))
  {
    Listened(c, c, listener);
    if reply.AckRerouted? {
      ReroutedState(c, listener);
    }
    hide Inv, RunScript, GotoFinal;
  }

  lemma {:induction false} ReroutedState(c: Conn, listener: Script)
    requires NoRequest(c) && !c.closed
    ensures GotoReconnecting(c, Rerouting, listener).state in {Rerouting, Final}
  {
    var m := ClearTimers(Goto(c, Rerouting));
    NotIdle(m);
    IdleScript(m, listener);
    ListenerState(m, RunScript(m, listener), listener);
    hide RunScript, Like, Closes;
  }

  lemma {:induction false} KeptByOther(c: Conn, e: Event)
    requires Under(c) && Enabled(c, e)
    requires !(e.UserConnect? || e.UserClose? || e.UserCancel? || e.UserCancelLast? || e.UserMakeRequest? || e.NextTick?)
    requires !(e.ConnectTimerFires? || e.ConnectFailed? || e.LookupFailed? || e.InitialSqlDone?)
    ensures Kept(Next(c, e))
  {
    hide RunScript, GotoFinal, Inv, OnLogin, Dispatch;
    if e.LoginResponse? {
      LoginResponseIs(c, e.login, e.listener);
      KeptByLogin(c, e.login, e.listener);
      hide Next;
    } else if e.SocketError? || e.SocketEnd? {
      Listened(c, c, e.listener);
      KeptByDispatch(RunScript(c, e.listener), c);
      SocketErrorIs(c, e.listener);
      SocketEndIs(c, e.listener);
      hide Next;
    } else if e.SocketClose? {
      FinalIdleInv(c);
      SocketCloseIs(c);
      hide Next;
    } else if e.PreloginResponse? {
      Listened(c, c, e.listener);
    } else if e.TokenFails? {
      KeptWithoutToken(c, e.listener);
    }
  }

  lemma {:induction false} KeptWithoutToken(c: Conn, s: Script)
    requires Under(c)
    ensures GotoFinal(RunScript(c.(token := false), s)).state == Final
  {
    var m := c.(token := false);
    TokenInv(c, false);
    ListenerInv(m, s);
    FinalIdleInv(RunScript(m, s));
    hide Inv, RunScript, GotoFinal;
  }

  lemma {:induction false} KeptByDispatch(c: Conn, before: Conn)
    requires c.state == before.state || c.state == Final
    requires c.current.None? && GotoFinal(c).state == Final && before.state !in {Initialized, SentClientRequest, SentAttention}
    ensures Kept(Dispatch(c, OnSocketError, SocketFailure))
  {
    hide GotoFinal;
  }

  /** While the connection is getting connected its timer runs on, until it fires, the attempt fails or the initial SQL is done. */
  lemma {:induction false} ConnectTimerKept(c: Conn, e: Event)
    requires Reachable(c) && c.connectTimer && Enabled(c, e)
    requires !(e.ConnectTimerFires? || e.ConnectFailed? || e.LookupFailed? || e.InitialSqlDone?)
    ensures var r := Next(c, e); r.connectTimer || r.state in {Final, Rerouting, TransientFailureRetry}
  {
    ReachableInv(c);
    UnderWay(c);
    hide Inv, Next, Enabled, Reachable, Under;
    if e.UserConnect? || e.UserClose? || e.UserCancel? || e.UserCancelLast? || e.UserMakeRequest? || e.NextTick? {
      KeptByUser(c, e);
    } else {
      KeptByOther(c, e);
    }
  }

  // The states.

  /** In this state. */
  ghost function In(s: State): Conn -> bool {
    (c: Conn) => c.state == s
  }

  /** Which states a connection can be in, given its options. */
  predicate Possible(cfg: Config, s: State) {
    match s
    case SentLogin7WithNtlm => cfg.auth == Ntlm
    case SentLogin7WithFedAuth => cfg.auth == FedAuth
    case SentLogin7WithStandardLogin => cfg.auth != Ntlm
    case TransientFailureRetry => cfg.maxRetries > 0
    case _ => true
  }

  lemma {:induction false} FromLoggedIn(c: Conn, s: State)
    requires Inv(c) && c.state == LoggedIn && s in {LoggedIn, SentClientRequest, SentAttention, Final}
    ensures Can(c, In(s))
  {
    var q, n := Request(0, false, false, Nothing), |c.log.completed|;
    hide Inv, Next, Enabled, Has, Can, Leads;
    var r := c;
    if s == LoggedIn {
      LeadNow(c);
    } else if s == Final {
      ClosedState(c);
      UserEnabled(c);
      LeadNow(c);
      LeadNext(c, c, UserClose);
      r := Next(c, UserClose);
    } else {
      r := Responds(c, q);
      var x := New(q).(payload := Over, phase := Responding);
      HasFacts(r, c.cfg, n, x, Unset);
      if s == SentAttention {
        AttendNow(r, c.cfg, n, x, Unset);
        LeadNext(c, r, UserCancel);
        r := Next(r, UserCancel);
        HasFacts(r, c.cfg, n, x.(canceled := true, attention := true, phase := Acknowledging), if c.cfg.cancelTimeout then Pending else Unset);
      }
    }
    CanReach(c, r, In(s));
  }

  lemma {:induction false} ClosedState(c: Conn)
    requires Inv(c) && c.state == LoggedIn
    ensures Next(c, UserClose).state == Final
  {
    NoRequestFacts(c);
    CloseIs(c);
    FinalIdleInv(c);
    hide Inv, Next, GotoFinal;
  }

  /** Logging in, with the socket open and no token waited for. */
  ghost predicate LogsIn(c: Conn, s: State) {
    Inv(c) && c.state == s && LoggingIn(s) && !c.closed && !c.token
  }

  lemma {:induction false} Acknowledges(c: Conn, s: State)
    requires LogsIn(c, s)
    ensures Enabled(c, LoginResponse(Ack, Nothing))
    ensures
      var r := Next(c, LoginResponse(Ack, Nothing));
      Inv(r) && r.cfg == c.cfg && r.state == LoggedInSendingInitialSql
      && Enabled(r, InitialSqlDone(Nothing)) && Inv(Next(r, InitialSqlDone(Nothing))) && Next(r, InitialSqlDone(Nothing)).state == LoggedIn
  {
    var e := LoginResponse(Ack, Nothing);
    assert Enabled(c, e);
    LoginResponseIs(c, Ack, Nothing);
    NextInv(c, e);
    hide Inv, Next;
    var r := Next(c, e);
    assert r.state == LoggedInSendingInitialSql && Enabled(r, InitialSqlDone(Nothing));
    NextInv(r, InitialSqlDone(Nothing));
    ConnectingIs(r, InitialSqlDone(Nothing));
    InitialSqlIs(r, Nothing);
    assert RunScript(Goto(r, LoggedIn).(connectTimer := false), Nothing) == Goto(r, LoggedIn).(connectTimer := false);
    hide Enabled, OnConnecting;
  }

  lemma {:induction false} Reroutes(c: Conn, s: State)
    requires LogsIn(c, s)
    ensures Enabled(c, LoginResponse(AckRerouted, Nothing)) && Next(c, LoginResponse(AckRerouted, Nothing)).state == Rerouting
  {
    LoginResponseIs(c, AckRerouted, Nothing);
    var m := ClearTimers(Goto(c, Rerouting));
    assert RunScript(m, Nothing) == m;
    hide Inv, Next;
  }

  lemma {:induction false} FailsOnce(c: Conn, s: State)
    requires LogsIn(c, s) && c.retries < c.cfg.maxRetries
    ensures Enabled(c, LoginResponse(LoginError(true), Nothing)) && Next(c, LoginResponse(LoginError(true), Nothing)).state == TransientFailureRetry
  {
    assert Enabled(c, LoginResponse(LoginError(true), Nothing));
    FailureRetries(c, LoginResponse(LoginError(true), Nothing));
    hide Inv, Next;
  }

  lemma {:induction false} TakesToken(c: Conn)
    requires LogsIn(c, SentLogin7WithFedAuth)
    ensures Enabled(c, LoginResponse(FedAuthInfo, Nothing))
    ensures
      var m := Next(c, LoginResponse(FedAuthInfo, Nothing));
      Enabled(m, TokenArrives) && Next(m, TokenArrives).state == SentLogin7WithStandardLogin
  {
    LoginResponseIs(c, FedAuthInfo, Nothing);
    var m := Next(c, LoginResponse(FedAuthInfo, Nothing));
    assert Enabled(m, TokenArrives);
    ConnectingIs(m, TokenArrives);
    TokenArrivesIs(m);
    hide Inv, Next, OnConnecting;
  }

  /** Everything behind the login is within reach of it. */
  lemma {:induction false} FromLogin(c: Conn, s: State)
    requires LogsIn(c, LoginState(c.cfg)) && c.retries == 0 && Possible(c.cfg, s)
    requires s !in {Initialized, Connecting, SentPrelogin, SentTlsSslNegotiation}
    ensures Can(c, In(s))
  {
    var p, s0 := In(s), LoginState(c.cfg);
    hide Inv, Next, Enabled, Can, LogsIn;
    if s == s0 {
      assert c.state == s by {
        LoginStateIs(c, s);
      }
      CanNow(c, p);
    } else if s == SentLogin7WithStandardLogin {
      TakesToken(c);
      var m := Next(c, LoginResponse(FedAuthInfo, Nothing));
      CanNow(Next(m, TokenArrives), p);
      CanNext(m, TokenArrives, p);
      CanNext(c, LoginResponse(FedAuthInfo, Nothing), p);
    } else if s == Rerouting {
      Reroutes(c, s0);
      CanNow(Next(c, LoginResponse(AckRerouted, Nothing)), p);
      CanNext(c, LoginResponse(AckRerouted, Nothing), p);
    } else if s == TransientFailureRetry {
      FailsOnce(c, s0);
      CanNow(Next(c, LoginResponse(LoginError(true), Nothing)), p);
      CanNext(c, LoginResponse(LoginError(true), Nothing), p);
    } else {
      Acknowledges(c, s0);
      var m := Next(c, LoginResponse(Ack, Nothing));
      if s == LoggedInSendingInitialSql {
        CanNow(m, p);
      } else {
        FromLoggedIn(Next(m, InitialSqlDone(Nothing)), s);
        CanNext(m, InitialSqlDone(Nothing), p);
      }
      CanNext(c, LoginResponse(Ack, Nothing), p);
    }
  }

  lemma {:induction false} LoginStateIs(c: Conn, s: State)
    requires LogsIn(c, s)
    ensures c.state == s
  {
  }

  /** The way to the login, with TLS or without. */
  lemma {:induction false} Connects(cfg: Config)
    ensures
      var c0 := Start(cfg);
      && Inv(c0) && Enabled(c0, UserConnect)
      && var c1 := Next(c0, UserConnect);
      && c1.state == Connecting && Enabled(c1, ConnectDone)
      && var c2 := Next(c1, ConnectDone);
      && c2.state == SentPrelogin && Enabled(c2, PreloginResponse(NeedsTls, Nothing))
      && var c3 := Next(c2, PreloginResponse(NeedsTls, Nothing));
      && c3.state == SentTlsSslNegotiation && Enabled(c3, TlsDone)
      && var c4 := Next(c3, TlsDone);
      && LogsIn(c4, LoginState(cfg)) && c4.cfg == cfg && c4.retries == 0
  {
    var c0 := Start(cfg);
    StartInv(cfg);
    var c1 := Next(c0, UserConnect);
    assert c1.state == Connecting && c1.attempt && !c1.token && c1.retries == 0;
    var c2 := Next(c1, ConnectDone);
    assert c2.state == SentPrelogin && !c2.closed && !c2.token && c2.retries == 0;
    var c3 := Next(c2, PreloginResponse(NeedsTls, Nothing));
    assert c3.state == SentTlsSslNegotiation && !c3.closed && !c3.token && c3.retries == 0;
    var c4 := Next(c3, TlsDone);
    assert c4.state == LoginState(cfg) && !c4.closed && !c4.token && c4.retries == 0;
    NextInv(c0, UserConnect);
    NextInv(c1, ConnectDone);
    NextInv(c2, PreloginResponse(NeedsTls, Nothing));
    NextInv(c3, TlsDone);
    hide Inv, Next;
  }

  /** Over all runs a new connection gets into a state if and only if its options allow for it. */
  lemma {:induction false} StatesExactly(cfg: Config, s: State)
    ensures Can(Start(cfg), In(s)) <==> Possible(cfg, s)
  {
    var c0, p := Start(cfg), In(s);
    if Possible(cfg, s) {
      hide Inv, Next, Enabled, Can;
      Connects(cfg);
      var c1 := Next(c0, UserConnect);
      var c2 := Next(c1, ConnectDone);
      var c3 := Next(c2, PreloginResponse(NeedsTls, Nothing));
      var c4 := Next(c3, TlsDone);
      if s == Initialized {
        CanNow(c0, p);
      } else {
        if s == Connecting {
          CanNow(c1, p);
        } else {
          if s == SentPrelogin {
            CanNow(c2, p);
          } else {
            if s == SentTlsSslNegotiation {
              CanNow(c3, p);
            } else {
              FromLogin(c4, s);
              CanNext(c3, TlsDone, p);
            }
            CanNext(c2, PreloginResponse(NeedsTls, Nothing), p);
          }
          CanNext(c1, ConnectDone, p);
        }
        CanNext(c0, UserConnect, p);
      }
    } else {
      hide Next, Enabled;
      forall es | EnabledRun(c0, es) ensures Run(c0, es).state != s {
        StartInv(cfg);
        hide Inv;
        RunInv(c0, es);
        StatePossible(Run(c0, es));
      }
    }
  }

  lemma {:induction false} StatePossible(c: Conn)
    requires Inv(c)
    ensures Possible(c.cfg, c.state)
  {
    hide HistoryOk, EndingOk, RequestOk, TimersOk;
  }
}
