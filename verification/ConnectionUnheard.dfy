/** A request whose attention was answered without an acknowledgement, so that nobody listens for any more. */
module ConnectionUnheard {
  import opened Wrappers
  import opened ConnectionSpec
  import opened ConnectionSteps
  import opened ConnectionCallbacks
  import opened ConnectionInvariant
  import opened ConnectionPaths
  import opened ConnectionRuns
  import opened ConnectionFinal

  /** Its attention was answered without an acknowledgement. */
  predicate Unheard(c: Conn) {
    At(c, SentAttention, Deaf) && c.current.value.canceled && !c.closed
  }

  /** Nothing has become of it. */
  predicate Hangs(c: Conn, r: Conn) {
    r == c.(made := r.made, deferred := r.deferred)
  }

  /** It has been called back, as `d` says. */
  predicate GoneWith(c: Conn, r: Conn, d: Completion) {
    r.current.None? && r.log.completed == c.log.completed + [d]
  }

  /** That is the end of the connection, if it had been cancelled. */
  lemma {:induction false} OverWith(c: Conn)
    requires Inv(c) && c.log.completed != [] && GivenUp(Last(c)) && Last(c).current.canceled
    ensures Gone(c) && Spent(c) && c.state == Final && !Reopens(c)
  {
    assert c.abandoned.Some? && AbandonedOk(c, c.abandoned.value) by {
      hide HistoryOk, TimersOk, RequestOk;
    }
    AbandonedFacts(c);
    hide Inv, Repeats;
  }

  /** It happens to a request that is cancelled while its response is being read. */
  lemma {:induction false} CanGoUnheard(c: Conn)
    requires Reachable(c) && c.state == LoggedIn
    ensures Can(c, Unheard)
  {
    ReachableInv(c);
    var q, n := Request(0, false, false, Nothing), |c.log.completed|;
    var timer := if c.cfg.cancelTimeout then Pending else Unset;
    var x := New(q).(payload := Over, phase := Responding);
    hide Inv, Next, Enabled, Has, Leads, Can, Unheard;
    var r := Responds(c, q);
    AttendNow(r, c.cfg, n, x, Unset);
    LeadNext(c, r, UserCancel);
    var r1 := Next(r, UserCancel);
    AnsweredWithout(r1, c.cfg, n, x.(canceled := true, attention := true, phase := Acknowledging), timer);
    LeadNext(c, r1, AttentionResponse(false));
    CanReach(c, Next(r1, AttentionResponse(false)), Unheard);
  }

  lemma {:induction false} AnsweredWithout(c: Conn, cfg: Config, n: nat, cur: Current, timer: Timer)
    requires Has(c, cfg, n, cur, timer) && cur.phase == Acknowledging && cur.canceled
    ensures Enabled(c, AttentionResponse(false)) && Unheard(Next(c, AttentionResponse(false)))
  {
    HasFacts(c, cfg, n, cur, timer);
    assert Enabled(c, AttentionResponse(false));
    hide Next, Enabled, Inv;
    UnacknowledgedIs(c);
  }

  lemma {:induction false} UnheardFacts(c: Conn)
    requires Inv(c) && c.current.Some? && c.current.value.phase == Deaf
    ensures Unheard(c) && !c.connectTimer && !c.requestTimer && !c.retryTimer && !c.attempt && !c.token
    ensures c.current.value.payload == Over && c.abandoned.None?
  {
    hide HistoryOk, EndingOk, SentFor;
  }

  lemma {:induction false} UnheardActs(c: Conn)
    requires Unheard(c)
    ensures c.state != LoggedIn && CancelRequest(c) == CancelTheLast(c) == c
  {
  }

  lemma {:induction false} UnheardClose(c: Conn)
    requires Inv(c) && Unheard(c)
    ensures GoneWith(c, GotoFinal(c), ClosedWith(c)) && Gone(GotoFinal(c))
  {
    CloseInv(c);
    hide Inv, GotoFinal, Gone;
    OverWith(GotoFinal(c));
  }

  predicate HangsUnless(c: Conn, r: Conn, closes: bool)
    requires c.current.Some?
  {
    if closes then GoneWith(c, r, ClosedWith(c)) && Gone(r) else Hangs(c, r)
  }

  lemma {:induction false} UnheardAct(c: Conn, a: Action)
    requires Inv(c) && Unheard(c)
    ensures HangsUnless(c, Act(c, a), ActCloses(a))
    decreases a
  {
    Acts(c, a, Nothing);
    UnheardActs(c);
    UnheardClose(c);
    hide Inv, RunScript, Act, GotoFinal, CancelRequest, CancelTheLast;
    if a.Make? {
      RefuseInv(c, a.request);
      UnheardScript(TurnAway(c, a.request), a.request.callback);
      hide Closes;
    }
  }

  lemma {:induction false} UnheardScript(c: Conn, s: Script)
    requires Inv(c) && Unheard(c)
    ensures HangsUnless(c, RunScript(c, s), Closes(s))
    decreases s
  {
    if s.Do? {
      var m := Act(c, s.action);
      Acts(c, s.action, s.rest);
      ActInv(c, s.action);
      UnheardAct(c, s.action);
      assert Closes(s) == (ActCloses(s.action) || Closes(s.rest));
      hide Inv, Act, RunScript, ActCloses, Closes;
      if ActCloses(s.action) {
        GoneScript(m, s.rest);
      } else {
        UnheardScript(m, s.rest);
      }
    }
  }

  /** What ends it. */
  predicate EndsIt(c: Conn, e: Event) {
    match e
    case UserClose => true
    case CancelTimerFires => true
    case SocketError(_) => true
    case SocketEnd(_) => true
    case SocketClose => true
    case UserMakeRequest(q) => Closes(q.callback)
    case NextTick => c.deferred != [] && Closes(c.deferred[0].callback)
    case _ => false
  }

  /** The request has been given up, and with it the connection. */
  ghost predicate GivenUpIn(c: Conn, r: Conn)
    requires c.current.Some?
  {
    exists d :: GivenUp(d) && d.current == c.current.value && GoneWith(c, r, d)
  }

  /** An error or the end of the socket; listeners, which are told first, may close. */
  lemma {:induction false} UnheardLoses(c: Conn, listener: Script)
    requires Inv(c) && Unheard(c)
    ensures GivenUpIn(c, Dispatch(RunScript(c, listener), OnSocketError, SocketFailure))
  {
    var m := RunScript(c, listener);
    UnheardScript(c, listener);
    ScriptInv(c, listener);
    hide Inv, RunScript, Dispatch, Closes;
    SocketErrorInv(m, SocketFailure);
    var r := Dispatch(m, OnSocketError, SocketFailure);
    assert GoneWith(c, r, if Closes(listener) then ClosedWith(c) else LostWith(c.current.value, SocketFailure));
  }

  lemma {:induction false} UnheardEvent(c: Conn, e: Event)
    requires Inv(c) && Unheard(c) && Enabled(c, e) && EndsIt(c, e)
    ensures GivenUpIn(c, Next(c, e))
  {
    hide Inv, Enabled, Next, GotoFinal, RunScript, Closes;
    match e
    case UserClose =>
      CloseIs(c);
      UnheardClose(c);
    case CancelTimerFires =>
      assert c.cancelTimer == Pending by {
        PendingTimer(c);
      }
      CancelTimerInv(c);
      assert GoneWith(c, Next(c, e), LostWith(c.current.value, CancelTimedOut));
    case SocketError(listener) =>
      SocketErrorIs(c, listener);
      UnheardLoses(c, listener);
    case SocketEnd(listener) =>
      SocketEndIs(c, listener);
      UnheardLoses(c, listener);
    case SocketClose =>
      SocketCloseIs(c);
      UnheardClose(c);
    case UserMakeRequest(q) =>
      MakeIs(c, q);
      RefuseInv(c, q);
      UnheardScript(TurnAway(c, q), q.callback);
      assert GoneWith(c, Next(c, e), ClosedWith(c));
    case NextTick =>
      UnheardTick(c);
      assert GoneWith(c, Next(c, e), ClosedWith(c));
  }

  lemma {:induction false} PendingTimer(c: Conn)
    requires Enabled(c, CancelTimerFires)
    ensures c.cancelTimer == Pending
  {
  }

  lemma {:induction false} UnheardTick(c: Conn)
    requires Inv(c) && Unheard(c) && c.deferred != []
    ensures HangsUnless(c, Next(c, NextTick), Closes(c.deferred[0].callback))
  {
    var q := c.deferred[0];
    var m := Refuse(c.(deferred := c.deferred[1..]), q.id, ECANCEL);
    NextTickIs(c);
    LikeInv(m, c);
    hide Inv, Next, RunScript, Closes;
    UnheardScript(m, q.callback);
  }

  /** Nothing else does anything to it. */
  lemma {:induction false} UnheardWaits(c: Conn, e: Event)
    requires Inv(c) && Unheard(c) && Enabled(c, e) && !EndsIt(c, e)
    ensures Hangs(c, Next(c, e))
  {
    UnheardFacts(c);
    hide Inv, RunScript, Closes;
    if e.UserMakeRequest? {
      hide Next;
      var q := e.request;
      MakeIs(c, q);
      RefuseInv(c, q);
      UnheardScript(TurnAway(c, q), q.callback);
    } else if e.NextTick? {
      UnheardTick(c);
      hide Next;
    } else {
      assert e.UserConnect? || e.UserCancel? || e.UserCancelLast?;
      UnheardActs(c);
      hide CancelRequest, CancelTheLast;
    }
  }

  /**
   After a response that does not acknowledge the attention no further response is read.
   The request then waits for the end of its connection, which only closing, the cancel
   timer and the socket bring about, and does not complete in any other way.
   */
  lemma {:induction false} NotHeardAgain(c: Conn, e: Event)
    requires Reachable(c) && c.current.Some? && c.current.value.phase == Deaf && Enabled(c, e)
    ensures if EndsIt(c, e) then GivenUpIn(c, Next(c, e)) else Hangs(c, Next(c, e))
  {
    ReachableInv(c);
    UnheardFacts(c);
    hide Inv, Enabled, Next, Reachable, Hangs, GivenUpIn, EndsIt, Unheard;
    if EndsIt(c, e) {
      UnheardEvent(c, e);
    } else {
      UnheardWaits(c, e);
    }
  }

  /** Over whole runs: the request hangs, or has been given up, and its connection is at its end for good. */
  lemma {:induction false} NeverHeardAgain(c: Conn, es: seq<Event>)
    requires Reachable(c) && c.current.Some? && c.current.value.phase == Deaf && EnabledRun(c, es)
    ensures
      var r := Run(c, es);
      Hangs(c, r) || (GivenUpIn(c, r) && r.state == Final && StaysFinal(r))
    decreases |es|
  {
    hide Enabled, Next, Reachable, EndsIt;
    if es != [] {
      var m := Next(c, es[0]);
      NotHeardAgain(c, es[0]);
      ReachableNext(c, es[0]);
      if Hangs(c, m) {
        NeverHeardAgain(m, es[1..]);
      } else {
        hide Hangs, GivenUpIn;
        GivenUpStays(c, m, es[1..]);
      }
    }
  }

  lemma {:induction false} GivenUpStays(c: Conn, m: Conn, es: seq<Event>)
    requires Reachable(c) && c.current.Some? && c.current.value.phase == Deaf
    requires Reachable(m) && GivenUpIn(c, m) && EnabledRun(m, es)
    ensures var r := Run(m, es); GivenUpIn(c, r) && r.state == Final && StaysFinal(r)
  {
    var r := Run(m, es);
    ReachableInv(c);
    ReachableInv(m);
    UnheardFacts(c);
    hide Inv, Reachable, StaysFinal, Revives;
    var d :| GivenUp(d) && d.current == c.current.value && GoneWith(c, m, d);
    assert Last(m) == d;
    OverWith(m);
    SpentStays(m, es);
    assert GoneWith(c, r, d);
    RunReachable(m, es);
    FinalIsFinal(r);
  }
}
