/** Runs of events, the states they reach, and how to show that a run exists. */
module ConnectionPaths {
  import opened Wrappers
  import opened ConnectionSpec
  import opened ConnectionSteps
  import opened ConnectionCallbacks
  import opened ConnectionInvariant

  predicate EnabledRun(c: Conn, es: seq<Event>)
    decreases |es|
  {
    es == [] || (Enabled(c, es[0]) && EnabledRun(Next(c, es[0]), es[1..]))
  }

  function Run(c: Conn, es: seq<Event>): Conn
    requires EnabledRun(c, es)
    decreases |es|
  {
    if es == [] then c else Run(Next(c, es[0]), es[1..])
  }

  lemma {:induction false} RunInv(c: Conn, es: seq<Event>)
    requires Inv(c) && EnabledRun(c, es)
    ensures Inv(Run(c, es)) && Run(c, es).cfg == c.cfg
    decreases |es|
  {
    hide Inv, Next, Enabled;
    if es != [] {
      NextInv(c, es[0]);
      RunInv(Next(c, es[0]), es[1..]);
    }
  }

  /** The states that runs of a new connection reach. */
  ghost predicate Reachable(c: Conn) {
    exists cfg, es :: EnabledRun(Start(cfg), es) && Run(Start(cfg), es) == c
  }

  lemma {:induction false} ReachableInv(c: Conn)
    requires Reachable(c)
    ensures Inv(c)
  {
    hide Inv, Next, Enabled;
    var cfg, es :| EnabledRun(Start(cfg), es) && Run(Start(cfg), es) == c;
    StartInv(cfg);
    RunInv(Start(cfg), es);
  }

  lemma {:induction false} ReachableNext(c: Conn, e: Event)
    requires Reachable(c) && Enabled(c, e)
    ensures Reachable(Next(c, e))
  {
    hide Next, Enabled;
    var cfg, es :| EnabledRun(Start(cfg), es) && Run(Start(cfg), es) == c;
    RunOneMore(Start(cfg), es, e);
    assert EnabledRun(Start(cfg), es + [e]);
  }

  lemma {:induction false} RunOneMore(c: Conn, es: seq<Event>, e: Event)
    requires EnabledRun(c, es) && Enabled(Run(c, es), e)
    ensures EnabledRun(c, es + [e]) && Run(c, es + [e]) == Next(Run(c, es), e)
    decreases |es|
  {
    hide Next, Enabled;
    if es == [] {
      assert es + [e] == [e] && [e][1..] == [];
      assert Run(Next(c, e), []) == Next(c, e);
    } else {
      assert (es + [e])[1..] == es[1..] + [e];
      RunOneMore(Next(c, es[0]), es[1..], e);
    }
  }

  lemma {:induction false} RunReachable(c: Conn, es: seq<Event>)
    requires Reachable(c) && EnabledRun(c, es)
    ensures Reachable(Run(c, es))
    decreases |es|
  {
    hide Enabled, Next, Reachable;
    if es != [] {
      ReachableNext(c, es[0]);
      RunReachable(Next(c, es[0]), es[1..]);
    }
  }

  lemma {:induction false} StepRun(c: Conn, e: Event, es: seq<Event>)
    requires Enabled(c, e) && EnabledRun(Next(c, e), es)
    ensures EnabledRun(c, [e] + es) && Run(c, [e] + es) == Run(Next(c, e), es)
  {
    hide Next, Enabled;
    assert ([e] + es)[1..] == es;
  }

  /** Some run leads to it. */
  ghost predicate Can(c: Conn, p: Conn -> bool) {
    exists es :: EnabledRun(c, es) && p(Run(c, es))
  }

  lemma {:induction false} CanNow(c: Conn, p: Conn -> bool)
    requires p(c)
    ensures Can(c, p)
  {
    assert EnabledRun(c, []) && Run(c, []) == c;
  }

  lemma {:induction false} CanNext(c: Conn, e: Event, p: Conn -> bool)
    requires Enabled(c, e) && Can(Next(c, e), p)
    ensures Can(c, p)
  {
    hide Next, Enabled;
    var es :| EnabledRun(Next(c, e), es) && p(Run(Next(c, e), es));
    StepRun(c, e, es);
    assert EnabledRun(c, [e] + es);
  }

  lemma {:induction false} UserEnabled(c: Conn)
    ensures Enabled(c, UserCancel) && Enabled(c, UserClose) && Enabled(c, UserCancelLast)
    ensures Enabled(c, UserMakeRequest(Request(0, false, false, Nothing)))
  {
  }

  // Runs built from the front.

  /** Some run leads from the one to the other. */
  ghost predicate Leads(c: Conn, r: Conn) {
    exists es :: EnabledRun(c, es) && Run(c, es) == r
  }

  lemma {:induction false} LeadNow(c: Conn)
    ensures Leads(c, c)
  {
    assert EnabledRun(c, []) && Run(c, []) == c;
  }

  lemma {:induction false} LeadNext(c: Conn, r: Conn, e: Event)
    requires Leads(c, r) && Enabled(r, e)
    ensures Leads(c, Next(r, e))
  {
    hide Next, Enabled;
    var es :| EnabledRun(c, es) && Run(c, es) == r;
    RunOneMore(c, es, e);
    assert EnabledRun(c, es + [e]);
  }

  lemma {:induction false} CanReach(c: Conn, r: Conn, p: Conn -> bool)
    requires Leads(c, r) && p(r)
    ensures Can(c, p)
  {
    var es :| EnabledRun(c, es) && Run(c, es) == r;
    assert p(Run(c, es));
  }

  lemma {:induction false} RunBoth(c: Conn, es: seq<Event>, fs: seq<Event>)
    requires EnabledRun(c, es) && EnabledRun(Run(c, es), fs)
    ensures EnabledRun(c, es + fs) && Run(c, es + fs) == Run(Run(c, es), fs)
    decreases |es|
  {
    hide Next, Enabled;
    if es == [] {
      assert es + fs == fs;
    } else {
      assert (es + fs)[1..] == es[1..] + fs;
      RunBoth(Next(c, es[0]), es[1..], fs);
    }
  }

  lemma {:induction false} CanFrom(c: Conn, r: Conn, p: Conn -> bool)
    requires Leads(c, r) && Can(r, p)
    ensures Can(c, p)
  {
    hide Next, Enabled;
    var es :| EnabledRun(c, es) && Run(c, es) == r;
    var fs :| EnabledRun(r, fs) && p(Run(r, fs));
    RunBoth(c, es, fs);
    assert EnabledRun(c, es + fs);
  }

  // A request on its way, one event at a time.

  /** A request in progress that is just so, with so many completed before it. */
  ghost predicate Has(c: Conn, cfg: Config, n: nat, cur: Current, timer: Timer) {
    Inv(c) && c.cfg == cfg && c.current == Some(cur) && c.cancelTimer == timer && |c.log.completed| == n
  }

  lemma {:induction false} HasFacts(c: Conn, cfg: Config, n: nat, cur: Current, timer: Timer)
    requires Has(c, cfg, n, cur, timer)
    ensures !c.closed && c.state == (if cur.phase in {Acknowledging, Deaf} then SentAttention else SentClientRequest)
    ensures c.requestTimer <==> Timed(cur)
  {
    CurrentFacts(c);
    hide HistoryOk, EndingOk, SentFor, PayloadOk, CancelOk, Timed;
  }

  /** As it is when it has been accepted. */
  function New(q: Request): Current {
    Current(q, Sending, false, false, false, None, Uncut, Streaming)
  }

  lemma {:induction false} Begins(c: Conn, q: Request)
    requires Inv(c) && c.state == LoggedIn && !q.canceled
    ensures
      var e := UserMakeRequest(q);
      Enabled(c, e) && Has(Next(c, e), c.cfg, |c.log.completed|, New(q), Unset) && Next(c, e).log.accepted == c.log.accepted + [q.id]
  {
    var e := UserMakeRequest(q);
    assert c.cancelTimer == Unset by {
      hide HistoryOk, EndingOk, CurrentOk;
    }
    MakeRequestIs(c, q);
    assert MakeRequest(c, q) == Accept(Hand(c, q), q);
    hide Inv, Next, Enabled, MakeRequest;
    NextInv(c, e);
  }

  lemma {:induction false} PayloadEndsNow(c: Conn, cfg: Config, n: nat, cur: Current, timer: Timer)
    requires Has(c, cfg, n, cur, timer) && cur.payload == Streaming
    ensures Enabled(c, PayloadEnds) && Has(Next(c, PayloadEnds), cfg, n, cur.(payload := Over), timer)
  {
    assert Enabled(c, PayloadEnds) && Next(c, PayloadEnds) == c.(current := Some(cur.(payload := Over)));
    hide Inv, Next, Enabled;
    NextInv(c, PayloadEnds);
  }

  lemma {:induction false} PayloadBreaksNow(c: Conn, cfg: Config, n: nat, cur: Current, timer: Timer)
    requires Has(c, cfg, n, cur, timer) && cur.payload == Streaming
    ensures Enabled(c, PayloadBreaks) && Has(Next(c, PayloadBreaks), cfg, n, cur.(error := Some(PayloadFailure), cut := ByFailure, payload := Over), timer)
  {
    assert cur.error == None && cur.cut == Uncut by {
      hide HistoryOk, EndingOk, TimersOk;
    }
    assert Enabled(c, PayloadBreaks);
    PayloadErrorIs(c, PayloadBreaks, PayloadFailure);
    hide Inv, Next, Enabled;
    NextInv(c, PayloadBreaks);
  }

  lemma {:induction false} PayloadReportsNow(c: Conn, cfg: Config, n: nat, cur: Current, timer: Timer)
    requires Has(c, cfg, n, cur, timer) && cur.payload == Destroyed && cur.error == None
    ensures Enabled(c, PayloadErrorDelivered) && Has(Next(c, PayloadErrorDelivered), cfg, n, cur.(error := Some(ECANCEL), payload := Over), timer)
  {
    assert cur.cut == ByCancel(true) by {
      hide HistoryOk, EndingOk, TimersOk;
    }
    assert Enabled(c, PayloadErrorDelivered);
    PayloadErrorIs(c, PayloadErrorDelivered, ECANCEL);
    hide Inv, Next, Enabled;
    NextInv(c, PayloadErrorDelivered);
  }

  lemma {:induction false} FinishesNow(c: Conn, cfg: Config, n: nat, cur: Current, timer: Timer)
    requires Has(c, cfg, n, cur, timer) && cur.phase == Sending && cur.payload != Streaming
    ensures Enabled(c, MessageFinished) && Has(Next(c, MessageFinished), cfg, n, cur.(phase := Sent), timer)
  {
    HasFacts(c, cfg, n, cur, timer);
    assert Enabled(c, MessageFinished);
    MessageFinishedIs(c);
    hide Inv, Next, Enabled;
    NextInv(c, MessageFinished);
  }

  /** Cancelled while its message is being written. */
  lemma {:induction false} CutNow(c: Conn, cfg: Config, n: nat, cur: Current, timer: Timer)
    requires Has(c, cfg, n, cur, timer) && cur.phase == Sending && !cur.canceled && cur.cut == Uncut
    ensures
      var streaming := cur.payload == Streaming;
      && Enabled(c, UserCancel)
      && Has(Next(c, UserCancel), cfg, n,
             cur.(canceled := true, cut := ByCancel(streaming), payload := if streaming then Destroyed else cur.payload), timer)
  {
    HasFacts(c, cfg, n, cur, timer);
    CancelIs(c);
    NextInv(c, UserCancel);
    hide Inv, Next, Enabled, Weight;
  }

  /** Cancelled behind its message; while its response is being read, that leads to waiting for the attention. */
  lemma {:induction false} AttendNow(c: Conn, cfg: Config, n: nat, cur: Current, timer: Timer)
    requires Has(c, cfg, n, cur, timer) && cur.phase in {Sent, Responding} && !cur.canceled
    ensures
      var x := cur.(canceled := true, attention := true, phase := if cur.phase == Responding then Acknowledging else Sent);
      Enabled(c, UserCancel) && Has(Next(c, UserCancel), cfg, n, x, if cfg.cancelTimeout then Pending else Unset)
  {
    HasFacts(c, cfg, n, cur, timer);
    CancelIs(c);
    NextInv(c, UserCancel);
    AttendedIs(c);
    hide Inv, Next, Enabled, CancelRequest;
  }

  lemma {:induction false} AttendedIs(c: Conn)
    requires c.state == SentClientRequest && !c.closed && c.current.Some? && !c.current.value.canceled && c.current.value.phase in {Sent, Responding}
    ensures
      var cur, r := c.current.value, CancelRequest(c);
      && r.current == Some(cur.(canceled := true, attention := true, phase := if cur.phase == Responding then Acknowledging else Sent))
      && r.cancelTimer == (if c.cfg.cancelTimeout then Pending else Unset) && r.log.completed == c.log.completed && r.cfg == c.cfg
  {
    hide Weight;
  }

  lemma {:induction false} StartsNow(c: Conn, cfg: Config, n: nat, cur: Current, timer: Timer)
    requires Has(c, cfg, n, cur, timer) && cur.phase == Sent
    ensures Enabled(c, ResponseStarted)
    ensures Has(Next(c, ResponseStarted), cfg, n, cur.(phase := if cur.canceled && timer != Unset then Acknowledging else Responding), timer)
  {
    HasFacts(c, cfg, n, cur, timer);
    assert Enabled(c, ResponseStarted);
    ResponseStartedIs(c);
    hide Inv, Next, Enabled;
    NextInv(c, ResponseStarted);
  }

  lemma {:induction false} ErrsNow(c: Conn, cfg: Config, n: nat, cur: Current, timer: Timer)
    requires Has(c, cfg, n, cur, timer) && cur.phase == Responding && !cur.canceled
    ensures Enabled(c, ErrorToken) && Has(Next(c, ErrorToken), cfg, n, cur.(error := Some(EREQUEST)), timer)
  {
    HasFacts(c, cfg, n, cur, timer);
    assert Enabled(c, ErrorToken);
    ErrorTokenIs(c);
    hide Inv, Next, Enabled;
    NextInv(c, ErrorToken);
  }

  /** A request that asks for a timer has one, and it can fire as long as nothing has been answered. */
  lemma {:induction false} TimesOutNow(c: Conn, cfg: Config, n: nat, cur: Current, timer: Timer)
    requires Has(c, cfg, n, cur, timer) && cur.request.timed && cur.phase in {Sending, Sent} && !cur.timedOut
    requires !cur.canceled && cur.cut == Uncut
    ensures
      var streaming := cur.payload == Streaming;
      var cut := if cur.phase == Sent then cur.(attention := true)
                 else cur.(cut := ByCancel(streaming), payload := if streaming then Destroyed else cur.payload);
      && Enabled(c, RequestTimerFires)
      && Has(Next(c, RequestTimerFires), cfg, n, cut.(canceled := true, timedOut := true, error := Some(ETIMEOUT)),
             if cur.phase == Sending then timer else if cfg.cancelTimeout then Pending else Unset)
  {
    HasFacts(c, cfg, n, cur, timer);
    assert Enabled(c, RequestTimerFires);
    RequestTimerIs(c);
    NextInv(c, RequestTimerFires);
    CancelUntimed(c);
    CutOrAttended(c);
    hide Inv, Next, Enabled, CancelRequest;
  }

  lemma {:induction false} CutOrAttended(c: Conn)
    requires c.state == SentClientRequest && !c.closed && c.current.Some? && !c.current.value.canceled && c.current.value.phase in {Sending, Sent}
    requires c.current.value.cut == Uncut
    ensures
      var cur, r := c.current.value, CancelRequest(c);
      var streaming := cur.payload == Streaming;
      && r.current == Some(
          if cur.phase == Sent then cur.(canceled := true, attention := true)
          else cur.(canceled := true, cut := ByCancel(streaming), payload := if streaming then Destroyed else cur.payload))
      && r.cancelTimer == (if cur.phase == Sending then c.cancelTimer else if c.cfg.cancelTimeout then Pending else Unset)
      && r.log.completed == c.log.completed
  {
    hide Weight;
  }

  // How it ends.

  /** The request has completed, in this way and with this outcome. */
  ghost predicate Completed(c: Conn, n: nat, how: How, outcome: Option<Code>) {
    n < |c.log.completed| && c.log.completed[n].how == how && c.log.completed[n].outcome == outcome
  }

  lemma {:induction false} EndsNow(c: Conn, cfg: Config, n: nat, cur: Current, timer: Timer)
    requires Has(c, cfg, n, cur, timer) && cur.phase == Responding
    ensures Enabled(c, ResponseEnded) && Completed(Next(c, ResponseEnded), n, EndOfMessage, cur.error)
    ensures Next(c, ResponseEnded).log.completed[n].current == cur
  {
    HasFacts(c, cfg, n, cur, timer);
    assert Enabled(c, ResponseEnded);
    hide Inv, Next, Enabled;
    ResponseEndedInv(c);
    assert Next(c, ResponseEnded).log.completed[n] == Completion(cur, cur.error, EndOfMessage);
  }

  lemma {:induction false} AcknowledgedNow(c: Conn, cfg: Config, n: nat, cur: Current, timer: Timer)
    requires Has(c, cfg, n, cur, timer) && cur.phase == Acknowledging
    ensures Enabled(c, AttentionResponse(true))
    ensures Completed(Next(c, AttentionResponse(true)), n, Acknowledged, Some(if cur.timedOut then ETIMEOUT else ECANCEL))
  {
    HasFacts(c, cfg, n, cur, timer);
    assert Enabled(c, AttentionResponse(true));
    hide Inv, Next, Enabled;
    AttentionInv(c);
    assert Next(c, AttentionResponse(true)).log.completed[n] == Completion(cur, Some(if cur.timedOut then ETIMEOUT else ECANCEL), Acknowledged);
  }

  lemma {:induction false} ClosedNow(c: Conn, cfg: Config, n: nat, cur: Current, timer: Timer)
    requires Has(c, cfg, n, cur, timer)
    ensures Enabled(c, UserClose) && Completed(Next(c, UserClose), n, Closed, Some(ECLOSE))
  {
    UserEnabled(c);
    CloseIs(c);
    CloseInv(c);
    hide Inv, Next, Enabled, GotoFinal;
  }

  lemma {:induction false} LostNow(c: Conn, cfg: Config, n: nat, cur: Current, timer: Timer)
    requires Has(c, cfg, n, cur, timer)
    ensures Enabled(c, SocketError(Nothing)) && Completed(Next(c, SocketError(Nothing)), n, Lost, Some(SocketFailure))
  {
    HasFacts(c, cfg, n, cur, timer);
    assert Enabled(c, SocketError(Nothing));
    SocketErrorIs(c, Nothing);
    assert RunScript(c, Nothing) == c;
    hide Next, Enabled, Dispatch, Inv;
    SocketErrorInv(c, SocketFailure);
  }

  lemma {:induction false} GivenUpNow(c: Conn, cfg: Config, n: nat, cur: Current)
    requires Has(c, cfg, n, cur, Pending)
    ensures Enabled(c, CancelTimerFires) && Completed(Next(c, CancelTimerFires), n, Lost, Some(CancelTimedOut))
  {
    assert Enabled(c, CancelTimerFires);
    hide Next, Enabled, Inv;
    CancelTimerInv(c);
  }

  /** Made, and its message on its way. */
  lemma {:induction false} Sends(c: Conn, q: Request) returns (r: Conn)
    requires Inv(c) && c.state == LoggedIn && !q.canceled
    ensures Leads(c, r) && Has(r, c.cfg, |c.log.completed|, New(q).(payload := Over, phase := Sent), Unset)
  {
    var cfg, n := c.cfg, |c.log.completed|;
    hide Inv, Next, Enabled, Has, Leads;
    Begins(c, q);
    LeadNow(c);
    LeadNext(c, c, UserMakeRequest(q));
    r := Next(c, UserMakeRequest(q));
    PayloadEndsNow(r, cfg, n, New(q), Unset);
    LeadNext(c, r, PayloadEnds);
    r := Next(r, PayloadEnds);
    FinishesNow(r, cfg, n, New(q).(payload := Over), Unset);
    LeadNext(c, r, MessageFinished);
    r := Next(r, MessageFinished);
  }

  /** And its response started. */
  lemma {:induction false} Responds(c: Conn, q: Request) returns (r: Conn)
    requires Inv(c) && c.state == LoggedIn && !q.canceled
    ensures Leads(c, r) && Has(r, c.cfg, |c.log.completed|, New(q).(payload := Over, phase := Responding), Unset)
  {
    hide Inv, Next, Enabled, Has, Leads;
    r := Sends(c, q);
    StartsNow(r, c.cfg, |c.log.completed|, New(q).(payload := Over, phase := Sent), Unset);
    LeadNext(c, r, ResponseStarted);
    r := Next(r, ResponseStarted);
  }
}
