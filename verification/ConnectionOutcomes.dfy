/** How requests come out: every way there is, and the runs that lead there. */
module ConnectionOutcomes {
  import opened Wrappers
  import opened ConnectionSpec
  import opened ConnectionSteps
  import opened ConnectionCallbacks
  import opened ConnectionInvariant
  import opened ConnectionPaths

  /** What a request can complete with, in each way of completing, given the connection's options. */
  predicate MayBe(cfg: Config, how: How, outcome: Option<Code>) {
    match how
    case EndOfMessage => outcome in {None, Some(EREQUEST), Some(PayloadFailure), Some(ETIMEOUT), Some(ECANCEL)}
    case Acknowledged => outcome == Some(ECANCEL) || (outcome == Some(ETIMEOUT) && cfg.cancelTimeout)
    case Closed => outcome == Some(ECLOSE)
    case Lost => outcome == Some(SocketFailure) || (outcome == Some(CancelTimedOut) && cfg.cancelTimeout)
  }

  ghost function Comes(n: nat, how: How, outcome: Option<Code>): Conn -> bool {
    (r: Conn) => Completed(r, n, how, outcome)
  }

  const PLAIN := Request(0, false, false, Nothing)
  const TIMED := Request(0, true, false, Nothing)

  /** A response that is read to its end. */
  lemma {:induction false} ByResponse(c: Conn, r: Conn, cfg: Config, n: nat, cur: Current)
    requires Leads(c, r) && Has(r, cfg, n, cur, Unset) && cur.phase == Sending && cur.payload != Streaming
    ensures Can(c, Comes(n, EndOfMessage, cur.error))
  {
    hide Inv, Next, Enabled, Has, Leads, Can, Completed;
    FinishesNow(r, cfg, n, cur, Unset);
    LeadNext(c, r, MessageFinished);
    var r1 := Next(r, MessageFinished);
    StartsNow(r1, cfg, n, cur.(phase := Sent), Unset);
    LeadNext(c, r1, ResponseStarted);
    var r2 := Next(r1, ResponseStarted);
    EndsNow(r2, cfg, n, cur.(phase := Responding), Unset);
    LeadNext(c, r2, ResponseEnded);
    CanReach(c, Next(r2, ResponseEnded), Comes(n, EndOfMessage, cur.error));
  }

  lemma {:induction false} CanEnd(c: Conn, outcome: Option<Code>)
    requires Inv(c) && c.state == LoggedIn && outcome in {None, Some(PayloadFailure), Some(ETIMEOUT), Some(ECANCEL)}
    ensures Can(c, Comes(|c.log.completed|, EndOfMessage, outcome))
  {
    var cfg, n, q := c.cfg, |c.log.completed|, if outcome == Some(ETIMEOUT) then TIMED else PLAIN;
    hide Inv, Next, Enabled, Has, Leads, Can;
    Begins(c, q);
    LeadNow(c);
    LeadNext(c, c, UserMakeRequest(q));
    var r, x := Next(c, UserMakeRequest(q)), New(q);
    if outcome == None {
      PayloadEndsNow(r, cfg, n, x, Unset);
      LeadNext(c, r, PayloadEnds);
      ByResponse(c, Next(r, PayloadEnds), cfg, n, x.(payload := Over));
    } else if outcome == Some(PayloadFailure) {
      PayloadBreaksNow(r, cfg, n, x, Unset);
      LeadNext(c, r, PayloadBreaks);
      ByResponse(c, Next(r, PayloadBreaks), cfg, n, x.(error := Some(PayloadFailure), cut := ByFailure, payload := Over));
    } else if outcome == Some(ETIMEOUT) {
      TimesOutNow(r, cfg, n, x, Unset);
      LeadNext(c, r, RequestTimerFires);
      ByResponse(c, Next(r, RequestTimerFires), cfg, n,
                 x.(cut := ByCancel(true), payload := Destroyed, canceled := true, timedOut := true, error := Some(ETIMEOUT)));
    } else {
      var y := x.(canceled := true, cut := ByCancel(true), payload := Destroyed);
      CutNow(r, cfg, n, x, Unset);
      LeadNext(c, r, UserCancel);
      var r1 := Next(r, UserCancel);
      PayloadReportsNow(r1, cfg, n, y, Unset);
      LeadNext(c, r1, PayloadErrorDelivered);
      ByResponse(c, Next(r1, PayloadErrorDelivered), cfg, n, y.(error := Some(ECANCEL), payload := Over));
    }
  }

  lemma {:induction false} CanErr(c: Conn)
    requires Inv(c) && c.state == LoggedIn
    ensures Can(c, Comes(|c.log.completed|, EndOfMessage, Some(EREQUEST)))
  {
    var cfg, n, x := c.cfg, |c.log.completed|, New(PLAIN).(payload := Over, phase := Responding);
    hide Inv, Next, Enabled, Has, Leads, Can, Completed;
    var r := Responds(c, PLAIN);
    ErrsNow(r, cfg, n, x, Unset);
    LeadNext(c, r, ErrorToken);
    var r1 := Next(r, ErrorToken);
    EndsNow(r1, cfg, n, x.(error := Some(EREQUEST)), Unset);
    LeadNext(c, r1, ResponseEnded);
    CanReach(c, Next(r1, ResponseEnded), Comes(n, EndOfMessage, Some(EREQUEST)));
  }

  lemma {:induction false} CanAcknowledge(c: Conn, code: Code)
    requires Inv(c) && c.state == LoggedIn && (code == ECANCEL || (code == ETIMEOUT && c.cfg.cancelTimeout))
    ensures Can(c, Comes(|c.log.completed|, Acknowledged, Some(code)))
  {
    var cfg, n := c.cfg, |c.log.completed|;
    var timer := if cfg.cancelTimeout then Pending else Unset;
    hide Inv, Next, Enabled, Has, Leads, Can, Completed;
    if code == ECANCEL {
      var x := New(PLAIN).(payload := Over, phase := Responding);
      var r := Responds(c, PLAIN);
      AttendNow(r, cfg, n, x, Unset);
      LeadNext(c, r, UserCancel);
      ByAcknowledgement(c, Next(r, UserCancel), cfg, n, x.(canceled := true, attention := true, phase := Acknowledging), timer);
    } else {
      var x := New(TIMED).(payload := Over, phase := Sent);
      var y := x.(attention := true, canceled := true, timedOut := true, error := Some(ETIMEOUT));
      var r := Sends(c, TIMED);
      TimesOutNow(r, cfg, n, x, Unset);
      LeadNext(c, r, RequestTimerFires);
      var r1 := Next(r, RequestTimerFires);
      StartsNow(r1, cfg, n, y, Pending);
      LeadNext(c, r1, ResponseStarted);
      ByAcknowledgement(c, Next(r1, ResponseStarted), cfg, n, y.(phase := Acknowledging), Pending);
    }
  }

  lemma {:induction false} ByAcknowledgement(c: Conn, r: Conn, cfg: Config, n: nat, cur: Current, timer: Timer)
    requires Leads(c, r) && Has(r, cfg, n, cur, timer) && cur.phase == Acknowledging
    ensures Can(c, Comes(n, Acknowledged, Some(if cur.timedOut then ETIMEOUT else ECANCEL)))
  {
    hide Inv, Next, Enabled, Has, Leads, Can, Completed;
    AcknowledgedNow(r, cfg, n, cur, timer);
    LeadNext(c, r, AttentionResponse(true));
    CanReach(c, Next(r, AttentionResponse(true)), Comes(n, Acknowledged, Some(if cur.timedOut then ETIMEOUT else ECANCEL)));
  }

  lemma {:induction false} CanGiveUp(c: Conn, how: How, outcome: Option<Code>)
    requires Inv(c) && c.state == LoggedIn && how in {Closed, Lost} && MayBe(c.cfg, how, outcome)
    ensures Can(c, Comes(|c.log.completed|, how, outcome))
  {
    var cfg, n, x := c.cfg, |c.log.completed|, New(PLAIN).(payload := Over, phase := Sent);
    hide Inv, Next, Enabled, Has, Leads, Can, Completed;
    var r := Sends(c, PLAIN);
    var e := UserClose;
    if how == Closed {
      ClosedNow(r, cfg, n, x, Unset);
    } else if outcome == Some(SocketFailure) {
      e := SocketError(Nothing);
      LostNow(r, cfg, n, x, Unset);
    } else {
      e := CancelTimerFires;
      AttendNow(r, cfg, n, x, Unset);
      LeadNext(c, r, UserCancel);
      r := Next(r, UserCancel);
      GivenUpNow(r, cfg, n, x.(canceled := true, attention := true));
    }
    LeadNext(c, r, e);
    CanReach(c, Next(r, e), Comes(n, how, outcome));
  }

  lemma {:induction false} OutcomeOk(c: Conn, i: nat)
    requires Inv(c) && i < |c.log.completed|
    ensures MayBe(c.cfg, c.log.completed[i].how, c.log.completed[i].outcome)
  {
    assert CompletionOk(c.cfg, c.log.completed[i], c.log.wire[i]) by {
      hide TimersOk, EndingOk, RequestOk, CompletionOk;
    }
    hide Inv, SentFor;
  }

  /** Over all runs from where a request can be made: which outcomes the next one can have, and in which way. */
  lemma {:induction false} OutcomesExactly(c: Conn, how: How, outcome: Option<Code>)
    requires Reachable(c) && c.state == LoggedIn
    ensures Can(c, Comes(|c.log.completed|, how, outcome)) <==> MayBe(c.cfg, how, outcome)
  {
    ReachableInv(c);
    var n := |c.log.completed|;
    if MayBe(c.cfg, how, outcome) {
      hide Inv, Next, Enabled, Can, Reachable;
      if how == EndOfMessage && outcome == Some(EREQUEST) {
        CanErr(c);
      } else if how == EndOfMessage {
        CanEnd(c, outcome);
      } else if how == Acknowledged {
        CanAcknowledge(c, outcome.value);
      } else {
        CanGiveUp(c, how, outcome);
      }
    } else {
      hide Inv, Next, Enabled, Reachable, MayBe;
      forall es | EnabledRun(c, es) ensures !Completed(Run(c, es), n, how, outcome) {
        RunInv(c, es);
        if Completed(Run(c, es), n, how, outcome) {
          OutcomeOk(Run(c, es), n);
        }
      }
    }
  }

  // A cancel that comes too late, or that the payload is too slow to report.

  /** A request has come out as a success although it was cancelled while its message was being written. */
  ghost predicate CutSuccess(c: Conn, streaming: bool) {
    exists i ::
      && 0 <= i < |c.log.completed| && c.log.completed[i].how == EndOfMessage
      && c.log.completed[i].current.cut == ByCancel(streaming) && c.log.completed[i].outcome == None
  }

  ghost predicate TooLate(c: Conn) {
    CutSuccess(c, false)
  }

  ghost predicate TooSlow(c: Conn) {
    CutSuccess(c, true)
  }

  lemma {:induction false} CutRun(c: Conn, r: Conn, cfg: Config, n: nat, streaming: bool)
    requires Leads(c, r) && Has(r, cfg, n, New(PLAIN).(payload := if streaming then Streaming else Over), Unset)
    ensures exists d :: Leads(c, d) && CutSuccess(d, streaming)
  {
    hide Inv, Next, Enabled, Has, Leads;
    var x := New(PLAIN).(payload := if streaming then Streaming else Over);
    var y := x.(canceled := true, cut := ByCancel(streaming), payload := if streaming then Destroyed else Over);
    CutNow(r, cfg, n, x, Unset);
    LeadNext(c, r, UserCancel);
    var r1 := Next(r, UserCancel);
    FinishesNow(r1, cfg, n, y, Unset);
    LeadNext(c, r1, MessageFinished);
    var r2 := Next(r1, MessageFinished);
    StartsNow(r2, cfg, n, y.(phase := Sent), Unset);
    LeadNext(c, r2, ResponseStarted);
    var r3 := Next(r2, ResponseStarted);
    EndsNow(r3, cfg, n, y.(phase := Responding), Unset);
    LeadNext(c, r3, ResponseEnded);
    var d := Next(r3, ResponseEnded);
    assert d.log.completed[n].current.cut == ByCancel(streaming) && d.log.completed[n].outcome == None;
    assert CutSuccess(d, streaming);
  }

  /** From wherever a request can be made, some run cancels it while its message is being written, and it comes out as a success. */
  lemma {:induction false} CanceledSuccess(c: Conn)
    requires Reachable(c) && c.state == LoggedIn
    ensures Can(c, TooLate) && Can(c, TooSlow)
  {
    ReachableInv(c);
    var cfg, n, e := c.cfg, |c.log.completed|, UserMakeRequest(PLAIN);
    hide Inv, Next, Enabled, Has, Leads, Can, CutSuccess, Reachable;
    Begins(c, PLAIN);
    LeadNow(c);
    LeadNext(c, c, e);
    var r := Next(c, e);
    CutRun(c, r, cfg, n, true);
    var d :| Leads(c, d) && CutSuccess(d, true);
    CanReach(c, d, TooSlow);
    PayloadEndsNow(r, cfg, n, New(PLAIN), Unset);
    LeadNext(c, r, PayloadEnds);
    CutRun(c, Next(r, PayloadEnds), cfg, n, false);
    var f :| Leads(c, f) && CutSuccess(f, false);
    CanReach(c, f, TooLate);
  }

  // An attention that nobody waits for.

  /** Some request has been completed by its response, and its attention has not been answered. */
  ghost predicate Unanswered(c: Conn) {
    exists i :: 0 <= i < |c.log.completed| && c.log.completed[i].how == EndOfMessage && c.log.completed[i].current.attention
  }

  /** And it has come out as a success, although it was cancelled. */
  ghost predicate UnansweredSuccess(c: Conn) {
    exists i ::
      && 0 <= i < |c.log.completed| && c.log.completed[i].how == EndOfMessage && c.log.completed[i].current.attention
      && c.log.completed[i].current.canceled && c.log.completed[i].outcome == None
  }

  /** Cancelled between the end of its message and the start of the response, with no cancel timer to tell. */
  lemma {:induction false} UnansweredRun(c: Conn)
    requires Inv(c) && c.state == LoggedIn && !c.cfg.cancelTimeout
    ensures Can(c, UnansweredSuccess)
  {
    var cfg, n, x := c.cfg, |c.log.completed|, New(PLAIN).(payload := Over, phase := Sent);
    var y := x.(canceled := true, attention := true);
    hide Inv, Next, Enabled, Has, Leads, Can;
    var r := Sends(c, PLAIN);
    AttendNow(r, cfg, n, x, Unset);
    LeadNext(c, r, UserCancel);
    var r1 := Next(r, UserCancel);
    StartsNow(r1, cfg, n, y, Unset);
    LeadNext(c, r1, ResponseStarted);
    var r2 := Next(r1, ResponseStarted);
    EndsNow(r2, cfg, n, y.(phase := Responding), Unset);
    LeadNext(c, r2, ResponseEnded);
    var d := Next(r2, ResponseEnded);
    assert d.log.completed[n].current.attention && d.log.completed[n].outcome == None;
    CanReach(c, d, UnansweredSuccess);
  }

  /**
   With a cancel timeout no request is completed by its response while its attention is
   unanswered. Without one that happens, and the request then comes out as a success
   although it was cancelled behind its message.
   */
  lemma {:induction false} AttentionAnswered(c: Conn)
    requires Reachable(c) && c.state == LoggedIn
    ensures Can(c, Unanswered) <==> !c.cfg.cancelTimeout
    ensures Can(c, UnansweredSuccess) <==> !c.cfg.cancelTimeout
  {
    ReachableInv(c);
    if c.cfg.cancelTimeout {
      hide Inv, Enabled, Next;
      forall es | EnabledRun(c, es) ensures !Unanswered(Run(c, es)) && !UnansweredSuccess(Run(c, es)) {
        RunInv(c, es);
        AllAnswered(Run(c, es));
      }
    } else {
      UnansweredRun(c);
    }
  }

  lemma {:induction false} AllAnswered(c: Conn)
    requires Inv(c) && c.cfg.cancelTimeout
    ensures !Unanswered(c)
  {
    hide TimersOk, EndingOk, RequestOk, PayloadOk, SentFor, CancelOk;
    forall i | 0 <= i < |c.log.completed| ensures !(c.log.completed[i].how == EndOfMessage && c.log.completed[i].current.attention) {
      assert CompletionOk(c.cfg, c.log.completed[i], c.log.wire[i]);
    }
  }

  // The next request.

  /** The callback of a request that has completed finds the connection ready for the next one. */
  lemma {:induction false} MakesTheNext(c: Conn, q: Request, e: Event)
    requires Reachable(c) && c.current.Some? && c.current.value.request.callback == Do(Make(q), Nothing) && !q.canceled
    requires Enabled(c, e) && (e == ResponseEnded || e == AttentionResponse(true))
    ensures var r := Next(c, e); r.log.accepted == c.log.accepted + [q.id] && r.state == SentClientRequest && r.requestTimer == q.timed
  {
    var cur := c.current.value;
    ReachableInv(c);
    CurrentFacts(c);
    assert !c.requestTimer by {
      hide HistoryOk, EndingOk, SentFor, PayloadOk, CancelOk;
    }
    hide Inv, Reachable;
    if e == ResponseEnded {
      ResponseIs(c);
      hide Next, Enabled;
      MakesInCallback(c, Goto(c, LoggedIn).(current := None), cur, cur.error, EndOfMessage, q);
    } else {
      AttentionIs(c);
      hide Next, Enabled;
      MakesInCallback(c, Goto(c, LoggedIn).(current := None, cancelTimer := Unset), cur, Some(AcknowledgedWith(cur)), Acknowledged, q);
    }
  }

  lemma {:induction false} MakesInCallback(c: Conn, m: Conn, cur: Current, outcome: Option<Code>, how: How, q: Request)
    requires m.state == LoggedIn && m.log == c.log && cur.request.callback == Do(Make(q), Nothing) && !q.canceled
    ensures var r := CallBack(m, cur, outcome, how); r.log.accepted == c.log.accepted + [q.id] && r.state == SentClientRequest && r.requestTimer == q.timed
  {
    var d := Complete(m, cur, outcome, how);
    assert d.state == LoggedIn && d.log.accepted == c.log.accepted;
    assert CallBack(m, cur, outcome, how) == RunScript(d, Do(Make(q), Nothing)) by {
      hide RunScript, Complete;
    }
    hide RunScript, Accept, Complete, CallBack;
    MakesInScript(d, q);
  }

  lemma {:induction false} MakesInScript(c: Conn, q: Request)
    requires c.state == LoggedIn && !q.canceled
    ensures RunScript(c, Do(Make(q), Nothing)) == Accept(Hand(c, q), q)
    ensures
      var r := Accept(Hand(c, q), q);
      r.log.accepted == c.log.accepted + [q.id] && r.state == SentClientRequest && r.requestTimer == q.timed
  {
    var r := Act(c, Make(q));
    assert r == MakeRequest(c, q) == Take(Hand(c, q), q) == Accept(Hand(c, q), q) by {
      hide RunScript, Accept;
    }
    assert RunScript(c, Do(Make(q), Nothing)) == RunScript(r, Nothing) == r;
    hide RunScript, Act;
  }

  /** And so does a listener that hears of the connection being made. */
  lemma {:induction false} MakesTheFirst(c: Conn, q: Request)
    requires c.state == LoggedInSendingInitialSql && !q.canceled
    ensures
      var r := Next(c, InitialSqlDone(Do(Make(q), Nothing)));
      r.log.accepted == c.log.accepted + [q.id] && r.state == SentClientRequest && r.requestTimer == q.timed && !r.connectTimer
  {
    var s := Do(Make(q), Nothing);
    ConnectingIs(c, InitialSqlDone(s));
    InitialSqlIs(c, s);
    MakesInScript(Goto(c, LoggedIn).(connectTimer := false), q);
    hide RunScript, Next, OnConnecting;
  }
}
