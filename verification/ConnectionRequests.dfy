/** What becomes of every request that is handed to the connection, accepted or not. */
module ConnectionRequests {
  import opened Wrappers
  import opened ConnectionSpec
  import opened ConnectionSteps
  import opened ConnectionCallbacks
  import opened ConnectionInvariant
  import opened ConnectionPaths
  import opened ConnectionRuns

  /** The requests of a kind, in order. */
  function Chosen(handed: seq<Handed>, canceled: bool, ready: bool): seq<nat> {
    if handed == [] then []
    else
      var h := handed[|handed| - 1];
      Chosen(handed[..|handed| - 1], canceled, ready) + if h.canceled == canceled && h.ready == ready then [h.id] else []
  }

  /** Those that came while the connection was not ready, cancelled or not. */
  function Early(handed: seq<Handed>): seq<nat> {
    if handed == [] then []
    else
      var h := handed[|handed| - 1];
      Early(handed[..|handed| - 1]) + if !h.ready then [h.id] else []
  }

  /** Those refused with this code, in order. */
  function With(refused: seq<(nat, Code)>, code: Code): seq<nat> {
    if refused == [] then []
    else
      var r := refused[|refused| - 1];
      With(refused[..|refused| - 1], code) + if r.1 == code then [r.0] else []
  }

  function DeferredIds(deferred: seq<Request>): (ids: seq<nat>)
    ensures |ids| == |deferred|
  {
    seq(|deferred|, i requires 0 <= i < |deferred| => deferred[i].id)
  }

  /** Whatever was handed over is accounted for. */
  predicate Balanced(c: Conn) {
    && c.log.accepted == Chosen(c.made.handed, false, true)
    && With(c.made.refused, EINVALIDSTATE) == Early(c.made.handed)
    && With(c.made.refused, ECANCEL) + DeferredIds(c.deferred) == Chosen(c.made.handed, true, true)
    && |c.made.handed| == |c.log.accepted| + |c.made.refused| + |c.deferred|
    && forall i | 0 <= i < |c.made.refused| :: c.made.refused[i].1 in {EINVALIDSTATE, ECANCEL}
  }

  /** What does not touch the books. */
  predicate SameBooks(c: Conn, r: Conn) {
    r.made == c.made && r.log.accepted == c.log.accepted && r.deferred == c.deferred
  }

  lemma {:induction false} SameBalanced(c: Conn, r: Conn)
    requires Balanced(c) && SameBooks(c, r)
    ensures Balanced(r)
  {
  }

  lemma {:induction false} OneMoreRefused(s: seq<(nat, Code)>, id: nat, code: Code, other: Code)
    ensures With(s + [(id, code)], other) == With(s, other) + if code == other then [id] else []
  {
    assert (s + [(id, code)])[..|s|] == s;
  }

  lemma {:induction false} OneMoreHanded(s: seq<Handed>, h: Handed, canceled: bool, ready: bool)
    ensures Chosen(s + [h], canceled, ready) == Chosen(s, canceled, ready) + if h.canceled == canceled && h.ready == ready then [h.id] else []
    ensures Early(s + [h]) == Early(s) + if !h.ready then [h.id] else []
  {
    assert (s + [h])[..|s|] == s;
  }

  lemma {:induction false} OneMoreDeferred(s: seq<Request>, q: Request)
    ensures DeferredIds(s + [q]) == DeferredIds(s) + [q.id]
  {
  }

  lemma {:induction false} TurnedAwayBalanced(c: Conn, q: Request)
    requires Balanced(c) && c.state != LoggedIn
    ensures Balanced(TurnAway(c, q))
  {
    var h := Handed(q.id, q.canceled, false);
    OneMoreHanded(c.made.handed, h, false, true);
    OneMoreHanded(c.made.handed, h, true, true);
    OneMoreRefused(c.made.refused, q.id, EINVALIDSTATE, EINVALIDSTATE);
    OneMoreRefused(c.made.refused, q.id, EINVALIDSTATE, ECANCEL);
    hide With, Chosen, Early, DeferredIds;
  }

  lemma {:induction false} TakenBalanced(c: Conn, q: Request)
    requires Balanced(c) && c.state == LoggedIn
    ensures Balanced(Take(Hand(c, q), q))
  {
    var h := Handed(q.id, q.canceled, true);
    OneMoreHanded(c.made.handed, h, false, true);
    OneMoreHanded(c.made.handed, h, true, true);
    OneMoreDeferred(c.deferred, q);
    TakenBooks(c, q);
    hide With, Chosen, Early, DeferredIds, Take, Hand;
  }

  lemma {:induction false} TakenBooks(c: Conn, q: Request)
    requires c.state == LoggedIn
    ensures
      var r := Take(Hand(c, q), q);
      && r.made == c.made.(handed := c.made.handed + [Handed(q.id, q.canceled, true)])
      && r.deferred == (if q.canceled then c.deferred + [q] else c.deferred)
      && r.log.accepted == (if q.canceled then c.log.accepted else c.log.accepted + [q.id])
  {
  }

  /** The first one that waits is called back with what cancelling it means. */
  lemma {:induction false} TickBalanced(c: Conn)
    requires Balanced(c) && c.deferred != []
    ensures Balanced(Refuse(c.(deferred := c.deferred[1..]), c.deferred[0].id, ECANCEL))
  {
    var q := c.deferred[0];
    OneMoreRefused(c.made.refused, q.id, ECANCEL, EINVALIDSTATE);
    OneMoreRefused(c.made.refused, q.id, ECANCEL, ECANCEL);
    assert DeferredIds(c.deferred) == [q.id] + DeferredIds(c.deferred[1..]);
    hide With, Chosen, Early, DeferredIds;
  }

  lemma {:induction false} ScriptBalanced(c: Conn, s: Script)
    requires Balanced(c)
    ensures Balanced(RunScript(c, s))
    decreases Weight(c) + Size(s), 1
  {
    hide Act, Weight, Size, Balanced;
    if s.Do? {
      assert Weight(Act(c, s.action)) + Size(s.rest) < Weight(c) + Size(s) && Weight(c) + Cost(s.action) <= Weight(c) + Size(s) by {
        SizeOf(s);
      }
      ActBalanced(c, s.action);
      ScriptBalanced(Act(c, s.action), s.rest);
    }
  }

  lemma {:induction false} ActBalanced(c: Conn, a: Action)
    requires Balanced(c)
    ensures Balanced(Act(c, a))
    decreases Weight(c) + Cost(a), 0
  {
    Acts(c, a, Nothing);
    assert Cost(Close) == 1;
    hide RunScript, Act, CancelRequest, CancelTheLast, GotoFinal, Weight, Size, Cost, Balanced;
    match a
    case Make(q) =>
      assert Weight(c) + Size(q.callback) < Weight(c) + Cost(a) by {
        CostOf(q);
      }
      MadeBalanced(c, q);
    case Close => CloseBalanced(c);
    case Cancel => CancelBalanced(c);
    case CancelLast => CancelBalanced(c);
  }

  lemma {:induction false} MadeBalanced(c: Conn, q: Request)
    requires Balanced(c)
    ensures Balanced(MakeRequest(c, q)) && Act(c, Make(q)) == MakeRequest(c, q)
    decreases Weight(c) + Size(q.callback), 2
  {
    hide RunScript, TurnAway, Hand, Take, Balanced, Weight, Size;
    if c.state == LoggedIn {
      TakenBalanced(c, q);
    } else {
      TurnedAwayBalanced(c, q);
      assert Weight(TurnAway(c, q)) == Weight(c) by {
        RefuseWeight(c, q);
      }
      ScriptBalanced(TurnAway(c, q), q.callback);
    }
  }

  lemma {:induction false} CancelBalanced(c: Conn)
    requires Balanced(c)
    ensures Balanced(CancelRequest(c)) && Balanced(CancelTheLast(c))
  {
    CancelTouches(c);
    CancelAbandonedTouches(c);
    hide CancelRequest, CancelAbandoned, Balanced;
    SameBalanced(c, CancelRequest(c));
    SameBalanced(c, CancelAbandoned(c));
  }

  lemma {:induction false} CloseBalanced(c: Conn)
    requires Balanced(c)
    ensures Balanced(GotoFinal(c))
    decreases Weight(c), 2
  {
    hide RunScript, Balanced, Size, Called, Ended, Ending;
    SameBooksEnding(c);
    if c.state != Final && !c.closed && c.current.Some? {
      var m := Called(c);
      var s := c.current.value.request.callback;
      assert Weight(m) + Size(s) < Weight(c);
      SameBalanced(c, m);
      ScriptBalanced(m, s);
      SameBooksEnding(RunScript(m, s));
      SameBalanced(RunScript(m, s), Ended(RunScript(m, s)));
    } else {
      SameBooksEnding(Ending(c));
      SameBalanced(c, GotoFinal(c));
    }
  }

  lemma {:induction false} SameBooksEnding(c: Conn)
    ensures SameBooks(c, Ending(c)) && SameBooks(c, Ended(c)) && SameBooks(c, Goto(c, Final)) && (c.current.Some? ==> SameBooks(c, Called(c)))
  {
  }

  lemma {:induction false} CallBackBalanced(c: Conn, cur: Current, outcome: Option<Code>, how: How)
    requires Balanced(c)
    ensures Balanced(CallBack(c, cur, outcome, how))
  {
    CompletedBooks(c, cur, outcome, how);
    hide RunScript, Balanced, Complete;
    SameBalanced(c, Complete(c, cur, outcome, how));
    ScriptBalanced(Complete(c, cur, outcome, how), cur.request.callback);
  }

  lemma {:induction false} CompletedBooks(c: Conn, cur: Current, outcome: Option<Code>, how: How)
    ensures SameBooks(c, Complete(c, cur, outcome, how))
  {
  }

  lemma {:induction false} LostBalanced(c: Conn, code: Code)
    requires Balanced(c)
    ensures Balanced(LoseRequest(c, code))
  {
    SameBalanced(c, Abandon(c));
    CloseBalanced(Abandon(c));
    var f := GotoFinal(Abandon(c));
    hide Balanced, GotoFinal, CallBack;
    if c.current.Some? {
      CallBackBalanced(f, c.current.value, Some(code), Lost);
    } else {
      SameBalanced(f, f.(log := f.log.(crashed := f.log.crashed + 1)));
    }
  }

  lemma {:induction false} DispatchBalanced(c: Conn, n: Name, code: Code)
    requires Balanced(c)
    ensures Balanced(Dispatch(c, n, code))
  {
    var u := c.(log := c.log.(unhandled := c.log.unhandled + 1));
    assert SameBooks(c, u);
    hide Balanced, GotoFinal, GotoConnecting, LoseRequest, Handles;
    if !Handles(c.state, n) {
      SameBalanced(c, u);
      CloseBalanced(u);
    } else {
      match n
      case OnReconnect => ConnectBalanced(c);
      case OnRetry => SameBalanced(c, c.(retryTimer := true));
      case OnConnectTimeout => CloseBalanced(c);
      case OnSocketError =>
        LostBalanced(c, code);
        CloseBalanced(c);
    }
  }

  lemma {:induction false} ConnectBalanced(c: Conn)
    requires Balanced(c)
    ensures Balanced(GotoConnecting(c))
  {
    hide Balanced;
    SameBalanced(c, GotoConnecting(c));
  }

  lemma {:induction false} GiveUpBalanced(c: Conn, listener: Script)
    requires Balanced(c)
    ensures Balanced(GotoFinal(RunScript(c, listener)))
  {
    hide Balanced, GotoFinal, RunScript;
    ScriptBalanced(c, listener);
    CloseBalanced(RunScript(c, listener));
  }

  lemma {:induction false} ReconnectingBalanced(c: Conn, s: State, listener: Script)
    requires Balanced(c)
    ensures Balanced(GotoReconnecting(c, s, listener))
  {
    var m := Goto(c, s);
    var script := if s == Rerouting then listener else Nothing;
    SameBalanced(c, m);
    SameBalanced(c, ClearTimers(m));
    ScriptBalanced(ClearTimers(m), script);
    SameBalanced(RunScript(ClearTimers(m), script), RunScript(ClearTimers(m), script).(closed := true));
    hide Balanced, RunScript;
  }

  lemma {:induction false} LoginBalanced(c: Conn, reply: LoginReply, listener: Script)
    requires Balanced(c)
    ensures Balanced(OnLogin(c, reply, listener))
  {
    hide Balanced, GotoFinal, RunScript, GotoReconnecting;
    match reply
    case Ack => SameBalanced(c, Goto(c, LoggedInSendingInitialSql));
    case AckRerouted => ReconnectingBalanced(c, Rerouting, listener);
    case Challenge =>
    case FedAuthInfo => SameBalanced(c, c.(token := true));
    case LoginError(_) =>
      var m := c.(retries := c.retries + 1);
      SameBalanced(c, m);
      hide SameBooks;
      ReconnectingBalanced(m, TransientFailureRetry, listener);
      GiveUpBalanced(c, listener);
    case NoAck => GiveUpBalanced(c, listener);
  }

  /** The events that nobody is told of. */
  lemma {:induction false} QuietlyBalanced(c: Conn, e: Event)
    requires Balanced(c) && (e.ConnectDone? || e.ConnectFailed? || e.TlsDone? || e.TokenArrives?)
    ensures Balanced(OnConnecting(c, e))
  {
    AttemptIs(c);
    TlsDoneIs(c);
    TokenArrivesIs(c);
    hide Balanced, OnConnecting;
    SameBalanced(c, OnConnecting(c, e));
  }

  lemma {:induction false} PreloginBalanced(c: Conn, reply: PreloginReply, listener: Script)
    requires Balanced(c)
    ensures Balanced(OnConnecting(c, PreloginResponse(reply, listener)))
  {
    PreloginIs(c, reply, listener);
    hide Balanced, OnConnecting, GotoFinal, RunScript;
    GiveUpBalanced(c, listener);
    SameBalanced(c, Goto(c, SentTlsSslNegotiation));
    SameBalanced(c, Goto(c, LoginState(c.cfg)));
  }

  /** A step that leaves the books alone, and what those who are told of it do. */
  lemma {:induction false} ToldBalanced(c: Conn, m: Conn, listener: Script)
    requires Balanced(c) && SameBooks(c, m)
    ensures Balanced(RunScript(m, listener)) && Balanced(GotoFinal(RunScript(m, listener)))
  {
    hide Balanced, RunScript, GotoFinal;
    SameBalanced(c, m);
    ScriptBalanced(m, listener);
    GiveUpBalanced(m, listener);
  }

  lemma {:induction false} ConnectingBalanced(c: Conn, e: Event)
    requires Balanced(c) && OfConnecting(e)
    ensures Balanced(OnConnecting(c, e))
  {
    hide Balanced, GotoFinal, RunScript, OnLogin, OnConnecting;
    if e.LookupFailed? {
      LookupIs(c, e.listener);
      ToldBalanced(c, c.(attempt := false, connectTimer := false), e.listener);
    } else if e.PreloginResponse? {
      PreloginBalanced(c, e.prelogin, e.listener);
    } else if e.LoginResponse? {
      LoginIs(c, e.login, e.listener);
      LoginBalanced(c, e.login, e.listener);
    } else if e.TokenFails? {
      TokenFailsIs(c, e.listener);
      ToldBalanced(c, c.(token := false), e.listener);
    } else if e.InitialSqlDone? {
      InitialSqlIs(c, e.listener);
      ToldBalanced(c, Goto(c, LoggedIn).(connectTimer := false), e.listener);
    } else {
      QuietlyBalanced(c, e);
    }
  }

  lemma {:induction false} ResponseBalanced(c: Conn, e: Event)
    requires Balanced(c) && Enabled(c, e) && (e.ResponseStarted? || e.ErrorToken? || e.ResponseEnded? || e.AttentionResponse?)
    ensures Balanced(Next(c, e))
  {
    hide Balanced, CallBack, Next, Enabled, GotoAttention, AcknowledgedWith;
    match e
    case ResponseStarted =>
      ResponseStartedIs(c);
      StartedBooks(c);
      SameBalanced(c, Next(c, e));
    case ErrorToken =>
      ErrorTokenIs(c);
      SameBalanced(c, Next(c, e));
    case ResponseEnded =>
      ResponseIs(c);
      var cur := c.current.value;
      var m := Goto(c, LoggedIn).(current := None);
      SameBalanced(c, m);
      CallBackBalanced(m, cur, cur.error, EndOfMessage);
    case AttentionResponse(acknowledged) =>
      AttentionFacts(c, acknowledged);
      if acknowledged {
        AttentionBalanced(c);
      } else {
        UnacknowledgedIs(c);
        SameBalanced(c, Next(c, e));
      }
  }

  lemma {:induction false} StartedBooks(c: Conn)
    ensures SameBooks(c, GotoAttention(c.(requestTimer := false)))
  {
  }

  lemma {:induction false} AttentionBalanced(c: Conn)
    requires Balanced(c) && Enabled(c, AttentionResponse(true))
    ensures Balanced(Next(c, AttentionResponse(true)))
  {
    AttentionFacts(c, true);
    AttentionIs(c);
    hide Balanced, CallBack, Next, Enabled, AcknowledgedWith;
    var cur := c.current.value;
    var m := Goto(c, LoggedIn).(current := None, cancelTimer := Unset);
    SameBalanced(c, m);
    CallBackBalanced(m, cur, Some(AcknowledgedWith(cur)), Acknowledged);
  }

  lemma {:induction false} SendingBalanced(c: Conn, e: Event)
    requires Balanced(c) && Enabled(c, e) && OfSending(e)
    ensures Balanced(Next(c, e))
  {
    hide Balanced, Next, Enabled;
    match e
    case PayloadEnds =>
      EndsBooks(c);
      SameBalanced(c, Next(c, e));
    case PayloadBreaks =>
      PayloadErrorIs(c, e, PayloadFailure);
      SameBalanced(c, Next(c, e));
    case PayloadErrorDelivered =>
      PayloadErrorIs(c, e, ECANCEL);
      SameBalanced(c, Next(c, e));
    case MessageFinished =>
      MessageFinishedIs(c);
      SentBooks(c, Message(c.current.value.request.id, c.current.value.cut));
      hide Send;
      SameBalanced(c, Next(c, e));
  }

  lemma {:induction false} EndsBooks(c: Conn)
    requires Enabled(c, PayloadEnds)
    ensures SameBooks(c, Next(c, PayloadEnds))
  {
  }

  lemma {:induction false} SentBooks(c: Conn, m: OnWire)
    ensures SameBooks(c, Send(c, m))
  {
  }

  lemma {:induction false} TimerBalanced(c: Conn, e: Event)
    requires Balanced(c) && Enabled(c, e) && (e.ConnectTimerFires? || e.CancelTimerFires? || e.RetryTimerFires?)
    ensures Balanced(Next(c, e))
  {
    hide Balanced, RunScript, Dispatch, GotoConnecting, Next, Enabled;
    match e
    case ConnectTimerFires(listener) =>
      ConnectTimerIs(c, listener);
      var m := c.(attempt := false);
      SameBalanced(c, m);
      ScriptBalanced(m, listener);
      var n := RunScript(m, listener);
      SameBalanced(n, n.(connectTimer := false));
      DispatchBalanced(n.(connectTimer := false), OnConnectTimeout, ETIMEOUT);
    case CancelTimerFires =>
      CancelTimerIs(c);
      SameBalanced(c, c.(cancelTimer := Fired));
      DispatchBalanced(c.(cancelTimer := Fired), OnSocketError, CancelTimedOut);
    case RetryTimerFires(listener) =>
      RetryTimerIs(c, listener);
      var m := c.(retryTimer := false);
      SameBalanced(c, m);
      ScriptBalanced(m, listener);
      ConnectBalanced(RunScript(m, listener));
  }

  lemma {:induction false} RequestTimerBalanced(c: Conn)
    requires Balanced(c) && c.requestTimer
    ensures Balanced(Next(c, RequestTimerFires))
  {
    RequestTimerIs(c);
    hide Balanced, CancelRequest, Next, Enabled;
    var m := c.(requestTimer := false);
    SameBalanced(c, m);
    CancelBalanced(m);
    hide SameBooks;
    TimedOutBalanced(CancelRequest(m));
  }

  lemma {:induction false} TimedOutBalanced(c: Conn)
    requires Balanced(c)
    ensures Balanced(
      if c.current.None? then c.(log := c.log.(crashed := c.log.crashed + 1))
      else c.(current := Some(c.current.value.(error := Some(ETIMEOUT), timedOut := true))))
  {
    hide Balanced;
    if c.current.None? {
      SameBalanced(c, c.(log := c.log.(crashed := c.log.crashed + 1)));
    } else {
      SameBalanced(c, c.(current := Some(c.current.value.(error := Some(ETIMEOUT), timedOut := true))));
    }
  }

  lemma {:induction false} SocketBalanced(c: Conn, e: Event)
    requires Balanced(c) && Enabled(c, e) && (e.SocketError? || e.SocketEnd? || e.SocketClose?)
    ensures Balanced(Next(c, e))
  {
    hide Balanced, RunScript, Dispatch, GotoFinal;
    match e
    case SocketClose =>
      SocketCloseDispatches(c);
      DispatchBalanced(c, OnReconnect, SocketFailure);
      DispatchBalanced(c, OnRetry, SocketFailure);
      CloseBalanced(c);
    case SocketError(listener) =>
      ScriptBalanced(c, listener);
      DispatchBalanced(RunScript(c, listener), OnSocketError, SocketFailure);
    case SocketEnd(listener) =>
      ScriptBalanced(c, listener);
      DispatchBalanced(RunScript(c, listener), OnSocketError, SocketFailure);
  }

  lemma {:induction false} UserBalanced(c: Conn, e: Event)
    requires Balanced(c) && Enabled(c, e)
    requires e.UserConnect? || e.UserClose? || e.UserCancel? || e.UserCancelLast? || e.UserMakeRequest? || e.NextTick?
    ensures Balanced(Next(c, e))
  {
    hide Balanced, RunScript, GotoFinal, GotoConnecting, CancelRequest, CancelTheLast, MakeRequest;
    match e
    case UserConnect => ConnectBalanced(c);
    case UserClose => CloseBalanced(c);
    case UserCancel => CancelBalanced(c);
    case UserCancelLast => CancelBalanced(c);
    case UserMakeRequest(q) => MadeBalanced(c, q);
    case NextTick =>
      var q := c.deferred[0];
      TickBalanced(c);
      ScriptBalanced(Refuse(c.(deferred := c.deferred[1..]), q.id, ECANCEL), q.callback);
  }

  lemma {:induction false} NextBalanced(c: Conn, e: Event)
    requires Balanced(c) && Enabled(c, e)
    ensures Balanced(Next(c, e))
  {
    if e.UserConnect? || e.UserClose? || e.UserCancel? || e.UserCancelLast? || e.UserMakeRequest? || e.NextTick? {
      hide Balanced, Next, Enabled;
      UserBalanced(c, e);
    } else if e.ConnectTimerFires? || e.CancelTimerFires? || e.RetryTimerFires? {
      hide Balanced, Next, Enabled;
      TimerBalanced(c, e);
    } else if e.RequestTimerFires? {
      TimerArmed(c);
      hide Balanced, Next, Enabled;
      RequestTimerBalanced(c);
    } else if e.SocketError? || e.SocketEnd? || e.SocketClose? {
      hide Balanced, Next, Enabled;
      SocketBalanced(c, e);
    } else if e.ResponseStarted? || e.ErrorToken? || e.ResponseEnded? || e.AttentionResponse? {
      hide Balanced, Next, Enabled;
      ResponseBalanced(c, e);
    } else if OfSending(e) {
      hide Balanced, Next, Enabled;
      SendingBalanced(c, e);
    } else if e.AbandonedFinished? {
      AbandonedFinishedIs(c);
      hide Balanced, Next, Enabled;
      SameBalanced(c, Next(c, e));
    } else {
      hide Balanced, Next, Enabled, OnConnecting;
      ConnectingIs(c, e);
      ConnectingBalanced(c, e);
    }
  }

  lemma {:induction false} RunBalanced(c: Conn, es: seq<Event>)
    requires Balanced(c) && EnabledRun(c, es)
    ensures Balanced(Run(c, es))
    decreases |es|
  {
    hide Balanced, Next, Enabled;
    if es != [] {
      NextBalanced(c, es[0]);
      RunBalanced(Next(c, es[0]), es[1..]);
    }
  }

  /**
   What becomes of every request that is handed over, in whatever state and by whatever
   callback. Those that come when the connection is ready, and have not been cancelled,
   are accepted; they have completed, in order, but for the one in progress. Those that
   come when it is not are called back with EINVALIDSTATE, in order; and those that were
   cancelled beforehand with ECANCEL, in order, but for those that the next ticks will
   call back. Nothing else is called back without having been accepted.
   */
  lemma {:induction false} EveryRequestOnce(c: Conn)
    requires Reachable(c)
    ensures Ids(c.log.completed) + (if c.current.Some? then [c.current.value.request.id] else []) == Chosen(c.made.handed, false, true)
    ensures With(c.made.refused, EINVALIDSTATE) == Early(c.made.handed)
    ensures With(c.made.refused, ECANCEL) + DeferredIds(c.deferred) == Chosen(c.made.handed, true, true)
    ensures |c.made.handed| == |c.log.completed| + (if c.current.Some? then 1 else 0) + |c.made.refused| + |c.deferred|
    ensures forall i | 0 <= i < |c.made.refused| :: c.made.refused[i].1 in {EINVALIDSTATE, ECANCEL}
  {
    ExactlyOnce(c);
    ReachableBalanced(c);
    hide Reachable, With, Chosen, Early, DeferredIds;
  }

  lemma {:induction false} ReachableBalanced(c: Conn)
    requires Reachable(c)
    ensures Balanced(c)
  {
    hide Next, Enabled;
    var cfg, es :| EnabledRun(Start(cfg), es) && Run(Start(cfg), es) == c;
    assert Balanced(Start(cfg));
    RunBalanced(Start(cfg), es);
  }
}
