/** What every event of the connection keeps. */
module ConnectionInvariant {
  import opened Wrappers
  import opened ConnectionSpec
  import opened ConnectionSteps
  import opened ConnectionCallbacks

  // The invariant.

  function Ids(completed: seq<Completion>): (ids: seq<nat>)
    ensures |ids| == |completed|
  {
    seq(|completed|, i requires 0 <= i < |completed| => completed[i].current.request.id)
  }

  /**
   Which states have an open socket behind them; connecting may or may not, nor logging in with a
   token that came late. How the connection logs in is its configuration's choice.
   */
  predicate SocketFlag(c: Conn) {
    match c.state
    case Connecting => true
    case Rerouting => c.closed
    case TransientFailureRetry => c.closed && c.retries > 0
    case Final => c.closed
    case SentAttention => c.closed <==> c.current.None?
    case SentLogin7WithStandardLogin => c.cfg.auth == Standard || c.cfg.auth == FedAuth
    case SentLogin7WithNtlm => !c.closed && c.cfg.auth == Ntlm
    case SentLogin7WithFedAuth => !c.closed && c.cfg.auth == FedAuth
    case _ => !c.closed
  }

  /** A request that asks for a timer has one until the response starts or the timer fires. */
  predicate Timed(cur: Current) {
    cur.request.timed && cur.phase in {Sending, Sent} && !cur.timedOut
  }

  /** Each timer is armed only where its event has a handler, and each attempt is the only one. */
  predicate TimersOk(c: Conn) {
    && (c.connectTimer ==>
          c.state !in {Initialized, Rerouting, TransientFailureRetry, LoggedIn, SentClientRequest, SentAttention} && c.abandoned.None?)
    && (c.state == Connecting && c.attempt ==> c.connectTimer)
    && (c.attempt ==> c.state in {Connecting, Final} && c.abandoned.None?)
    && (c.retryTimer ==> c.state in {TransientFailureRetry, Final} && !c.connectTimer && !c.attempt && c.abandoned.None?)
    && (c.token ==> c.cfg.auth == FedAuth && c.state in {SentLogin7WithFedAuth, Final} && !c.attempt && !c.retryTimer && c.abandoned.None?)
    && (c.requestTimer <==> c.current.Some? && Timed(c.current.value))
    && (c.cancelTimer == Pending ==> c.abandoned.Some? || (c.current.Some? && c.current.value.attention && c.cfg.cancelTimeout))
    && (c.cancelTimer == Fired ==> c.abandoned.Some?)
  }

  /** What was sent for a request: nothing yet, or its message, and after that perhaps one attention. */
  predicate SentFor(sent: seq<OnWire>, id: nat, cut: Cut, attention: bool) {
    if attention then sent == [Message(id, cut), Attention(id)]
    else sent == [] || sent == [Message(id, cut)]
  }

  /** What was sent for the request that was accepted last. */
  function LastSent(c: Conn): seq<OnWire> {
    if c.log.wire == [] then [] else c.log.wire[|c.log.wire| - 1]
  }

  /** A cancel cut the message short, or sent an attention; a cut by cancelling excludes an attention. */
  predicate CancelOk(cur: Current) {
    && (cur.attention ==> cur.canceled && !cur.cut.ByCancel?)
    && (cur.cut.ByCancel? ==> cur.canceled)
    && (cur.canceled ==> cur.attention || cur.cut != Uncut)
    && (cur.timedOut ==> cur.canceled)
  }

  /** How a request can complete, and with what. */
  predicate CompletionOk(cfg: Config, d: Completion, sent: seq<OnWire>) {
    var cur := d.current;
    && SentFor(sent, cur.request.id, cur.cut, cur.attention)
    && CancelOk(cur)
    && match d.how
       case Closed => d.outcome == Some(ECLOSE)
       case Lost => d.outcome == Some(SocketFailure) || (d.outcome == Some(CancelTimedOut) && cfg.cancelTimeout)
       case Acknowledged =>
         (cur.timedOut ==> cfg.cancelTimeout) && sent != [] && cur.attention && cur.phase == Acknowledging && d.outcome == Some(if cur.timedOut then ETIMEOUT else ECANCEL)
       case EndOfMessage =>
         && sent != [] && cur.phase == Responding
         && (cfg.cancelTimeout ==> !cur.attention)
         && (cur.timedOut ==> d.outcome == Some(ETIMEOUT))
         && (!cur.timedOut && cur.canceled ==> d.outcome == CancelOutcome(cur))
         && (!cur.canceled ==> d.outcome == OwnOutcome(cur) || d.outcome == Some(EREQUEST))
  }

  /**
   The error of a request that is cancelled, and has not timed out: the destroyed
   payload reports the cancel, if it was streaming and has got round to it; a failure
   ahead of the cancel is kept; and otherwise there is none.
   */
  function CancelOutcome(cur: Current): Option<Code> {
    match cur.cut
    case ByCancel(streaming) => if streaming && cur.payload == Over then Some(ECANCEL) else None
    case ByFailure => Some(PayloadFailure)
    case Uncut => None
  }

  /** The error of a request by itself. */
  function OwnOutcome(cur: Current): Option<Code> {
    if cur.cut == ByFailure then Some(PayloadFailure) else None
  }

  /** The payload of a message against its cut and its error. */
  predicate PayloadOk(cur: Current) {
    && (cur.payload == Streaming ==> cur.phase == Sending && cur.cut == Uncut && cur.error == None && !cur.canceled)
    && (cur.payload == Destroyed ==>
          cur.cut == ByCancel(true) && cur.phase in {Sending, Sent, Responding} && cur.error in {None, Some(ETIMEOUT)})
    && (cur.error == Some(ETIMEOUT) <==> cur.timedOut)
    && (!cur.canceled ==> cur.error == OwnOutcome(cur) || (cur.phase == Responding && cur.error == Some(EREQUEST)))
    && (cur.canceled && !cur.timedOut && cur.phase in {Sending, Sent, Responding} ==> cur.error == CancelOutcome(cur))
  }

  /** The current request against the state, its own record, and what was sent for it. */
  predicate CurrentOk(c: Conn, cur: Current, sent: seq<OnWire>) {
    && (c.state == SentClientRequest <==> cur.phase in {Sending, Sent, Responding})
    && (c.state == SentAttention <==> cur.phase in {Acknowledging, Deaf})
    && SentFor(sent, cur.request.id, cur.cut, cur.attention)
    && (sent == [] <==> cur.phase == Sending)
    && (cur.phase in {Acknowledging, Deaf} ==> cur.attention && (cur.timedOut ==> c.cfg.cancelTimeout))
    && (cur.attention && c.cfg.cancelTimeout ==> c.cancelTimer == Pending && cur.phase != Responding)
    && PayloadOk(cur) && CancelOk(cur)
  }

  /** Accepted requests complete in order, and the current one has yet to. */
  predicate HistoryOk(c: Conn) {
    && |c.log.wire| == |c.log.accepted|
    && c.log.accepted == Ids(c.log.completed) + (if c.current.Some? then [c.current.value.request.id] else [])
    && forall i | 0 <= i < |c.log.completed| :: CompletionOk(c.cfg, c.log.completed[i], c.log.wire[i])
  }

  predicate GivenUp(d: Completion) {
    d.how == Closed || d.how == Lost
  }

  /** Its response was being read, and it had not been cancelled. */
  predicate Reading(d: Completion) {
    d.current.phase == Responding && !d.current.canceled
  }

  /** The callback of closing that is called again. */
  predicate Repeats(d: Completion) {
    d.how == Closed && Reading(d) && CancelsThenCloses(d.current.request.callback)
  }

  /** A request given up is the last one, and can still be cancelled. */
  predicate AbandonedOk(c: Conn, a: Current) {
    && c.log.completed != [] && c.current.None? && c.closed && c.state in {Final, SentAttention}
    && var d := c.log.completed[|c.log.completed| - 1];
    && GivenUp(d) && a.request == d.current.request
    && (d.current.canceled ==> a.canceled)
    && (!a.canceled ==> a.phase in {Sending, Sent, Responding} && (a.phase == Responding <==> d.current.phase == Responding))
    && (c.state == SentAttention || c.log.crashed > 0 ==> a.canceled && Reading(d))
  }

  predicate EndingOk(c: Conn) {
    && (forall i | 0 <= i < |c.log.completed| :: GivenUp(c.log.completed[i]) ==> i == |c.log.completed| - 1 && c.abandoned.Some?)
    && (c.abandoned.Some? ==> AbandonedOk(c, c.abandoned.value))
    && (if c.log.completed != [] && Repeats(c.log.completed[|c.log.completed| - 1]) then
          |c.log.repeated| == 1 && c.log.repeated[0].current.request == c.log.completed[|c.log.completed| - 1].current.request
        else c.log.repeated == [])
    && (c.log.crashed > 0 ==> c.log.crashed == 1 && c.state == Final && c.abandoned.Some?)
  }

  predicate RequestOk(c: Conn) {
    && (c.current.Some? ==> InProgress(c.state) && c.abandoned.None? && |c.log.wire| > 0 && CurrentOk(c, c.current.value, LastSent(c)))
    && (InProgress(c.state) && c.current.None? ==> c.state == SentAttention && c.abandoned.Some?)
  }

  predicate Inv(c: Conn) {
    && c.log.unhandled == 0 && c.log.overwritten == 0 && c.retries <= c.cfg.maxRetries
    && SocketFlag(c) && TimersOk(c) && HistoryOk(c) && EndingOk(c) && RequestOk(c)
  }

  lemma {:induction false} StartInv(cfg: Config)
    ensures Inv(Start(cfg))
  {
  }

  /** What is refused and what is deferred makes no difference. */
  predicate Alike(a: Conn, b: Conn) {
    a == b.(made := a.made, deferred := a.deferred)
  }

  lemma {:induction false} LikeInv(a: Conn, b: Conn)
    requires Alike(a, b) && Inv(b)
    ensures Inv(a)
  {
    hide CompletionOk, CurrentOk, Ids, Repeats, AbandonedOk;
    assert b.abandoned.Some? && AbandonedOk(b, b.abandoned.value) ==> AbandonedOk(a, b.abandoned.value) by {
      LikeAbandoned(a, b);
    }
    assert b.current.Some? ==> forall sent :: CurrentOk(a, b.current.value, sent) == CurrentOk(b, b.current.value, sent) by {
      LikeCurrent(a, b);
    }
  }

  lemma {:induction false} LikeAbandoned(a: Conn, b: Conn)
    requires Alike(a, b)
    ensures b.abandoned.Some? && AbandonedOk(b, b.abandoned.value) ==> AbandonedOk(a, b.abandoned.value)
  {
  }

  lemma {:induction false} LikeCurrent(a: Conn, b: Conn)
    requires Alike(a, b)
    ensures b.current.Some? ==> forall sent :: CurrentOk(a, b.current.value, sent) == CurrentOk(b, b.current.value, sent)
  {
  }

  // Ending.

  lemma {:induction false} CompletedOne(c: Conn, d: Completion)
    requires HistoryOk(c) && c.current == Some(d.current) && |c.log.wire| > 0
    requires CompletionOk(c.cfg, d, LastSent(c))
    ensures
      var r := Complete(c, d.current, d.outcome, d.how);
      HistoryOk(r.(current := None)) && r == c.(log := c.log.(completed := c.log.completed + [d]))
  {
    hide CompletionOk;
    var r := Complete(c, d.current, d.outcome, d.how);
    assert |c.log.completed| < |c.log.accepted|;
    assert Ids(r.log.completed) == Ids(c.log.completed) + [d.current.request.id];
  }

  /** A connection with a request in progress has given up none before. */
  lemma {:induction false} NoneGivenUp(c: Conn)
    requires Inv(c) && c.abandoned.None?
    ensures c.log.repeated == [] && c.log.crashed == 0
    ensures forall i | 0 <= i < |c.log.completed| :: !GivenUp(c.log.completed[i])
  {
    hide SocketFlag, TimersOk, HistoryOk, RequestOk, AbandonedOk;
  }

  /** What is left of a connection whose request is given up. */
  predicate Ends(c: Conn, d: Completion, r: Conn) {
    && r == c.(
        state := r.state, closed := true, current := None, abandoned := r.abandoned, connectTimer := false, requestTimer := false,
        retryTimer := false, cancelTimer := r.cancelTimer, made := r.made,
        log := c.log.(completed := c.log.completed + [d], repeated := r.log.repeated))
    && r.abandoned.Some? && r.state in {Final, SentAttention}
    && r.abandoned.value.request == d.current.request && (d.current.canceled ==> r.abandoned.value.canceled)
    && (!r.abandoned.value.canceled ==> r.abandoned.value == d.current)
    && (r.state == SentAttention ==> r.abandoned.value.canceled && Reading(d))
    && (if Repeats(d) then |r.log.repeated| == 1 && r.log.repeated[0].current.request == d.current.request else r.log.repeated == [])
  }

  lemma {:induction false} EndsHistory(c: Conn, d: Completion, r: Conn)
    requires Inv(c) && c.current == Some(d.current) && CompletionOk(c.cfg, d, LastSent(c))
    requires Ends(c, d, r)
    ensures HistoryOk(r)
  {
    CompletedOne(c, d);
    hide CompletionOk, Ids, SocketFlag, TimersOk, EndingOk, RequestOk, Repeats;
    assert HistoryOk(Complete(c, d.current, d.outcome, d.how).(current := None));
  }

  lemma {:induction false} EndsInv(c: Conn, d: Completion, r: Conn)
    requires Inv(c) && c.current == Some(d.current) && GivenUp(d) && CompletionOk(c.cfg, d, LastSent(c))
    requires Ends(c, d, r)
    ensures Inv(r)
  {
    EndsHistory(c, d, r);
    NoneGivenUp(c);
    assert d.current.phase in {Sending, Sent, Responding} || d.current.canceled by {
      hide HistoryOk, EndingOk, SentFor, PayloadOk;
    }
    hide HistoryOk, CompletionOk, CurrentOk, Ids, Repeats;
    assert forall i | 0 <= i < |c.log.completed| :: r.log.completed[i] == c.log.completed[i];
  }

  lemma {:induction false} FinalIdleIs(c: Conn)
    requires c.current.None? && (c.state == Final ==> c.closed)
    ensures
      var r := GotoFinal(c);
      && r == c.(state := Final, closed := true, connectTimer := r.connectTimer, requestTimer := r.requestTimer, retryTimer := r.retryTimer)
      && (r.connectTimer ==> c.connectTimer) && (r.requestTimer ==> c.requestTimer) && (r.retryTimer ==> c.retryTimer)
  {
    hide RunScript, Weight;
  }

  lemma {:induction false} FinalIdleInv(c: Conn)
    requires Inv(c) && c.current.None?
    ensures var r := GotoFinal(c); Inv(r) && r.state == Final && r.closed && r.log == c.log && r.current.None?
  {
    assert c.state == Final ==> c.closed by {
      hide HistoryOk, EndingOk, TimersOk, RequestOk;
    }
    FinalIdleIs(c);
    hide GotoFinal;
    assert TimersOk(GotoFinal(c)) by {
      hide HistoryOk, EndingOk, RequestOk, SocketFlag;
    }
    assert EndingOk(GotoFinal(c)) by {
      hide HistoryOk, TimersOk, RequestOk, SocketFlag, Repeats;
    }
    hide TimersOk, EndingOk, CompletionOk, CurrentOk, Ids;
  }

  lemma {:induction false} CurrentFacts(c: Conn)
    requires Inv(c) && c.current.Some?
    ensures !c.closed && c.abandoned.None? && InProgress(c.state) && |c.log.wire| > 0 && |c.log.completed| + 1 == |c.log.accepted|
    ensures c.current.value.canceled || c.current.value.phase in {Sending, Sent, Responding}
  {
    hide CompletionOk, PayloadOk, SentFor, EndingOk, TimersOk;
  }

  function ClosedWith(c: Conn): Completion
    requires c.current.Some?
  {
    Completion(c.current.value, Some(ECLOSE), How.Closed)
  }

  /** Where its callback is called. */
  function ClosingConn(c: Conn): Conn
    requires c.current.Some?
  {
    ClearTimers(Goto(c, Final)).(log := c.log.(completed := c.log.completed + [ClosedWith(c)]))
  }

  lemma {:induction false} CloseReached(c: Conn)
    requires Inv(c) && c.current.Some?
    ensures
      var m := ClosingConn(c);
      var called := RunScript(m, c.current.value.request.callback);
      && Closing(m) && m.state == Final && (c.current.value.canceled || Cancelable(m))
      && GotoFinal(c) == Abandon(called).(closed := true)
  {
    CurrentFacts(c);
    hide Inv, RunScript, Weight;
    assert Complete(ClearTimers(Goto(c, Final)), c.current.value, Some(ECLOSE), How.Closed) == ClosingConn(c);
  }

  /** The end of a connection that is closed while a request is in progress. */
  lemma {:induction false} CloseEnds(c: Conn)
    requires Inv(c) && c.current.Some?
    ensures Ends(c, ClosedWith(c), GotoFinal(c))
  {
    CloseReached(c);
    NoneGivenUp(c);
    CurrentFacts(c);
    var m, s := ClosingConn(c), c.current.value.request.callback;
    var called := RunScript(m, s);
    hide Inv, RunScript, GotoFinal, Cancels, CancelsThenCloses, Cancelable;
    if c.current.value.canceled {
      QuietScript(m, s);
      EndsUntouched(c, called);
    } else {
      ClosingScript(m, s);
      CancelsThenClosesDoesBoth(s);
      if !Cancels(s) {
        EndsUntouched(c, called);
      } else {
        EndsCanceled(c, called);
      }
    }
  }

  lemma {:induction false} EndsUntouched(c: Conn, called: Conn)
    requires c.current.Some? && c.log.repeated == [] && Like(called, ClosingConn(c))
    requires c.current.value.canceled || !CancelsThenCloses(c.current.value.request.callback)
    ensures Ends(c, ClosedWith(c), Abandon(called).(closed := true))
  {
  }

  lemma {:induction false} EndsCanceled(c: Conn, called: Conn)
    requires c.current.Some? && !c.current.value.canceled && c.current.value.phase in {Sending, Sent, Responding} && c.log.repeated == []
    requires Like(called, AfterClosing(ClosingConn(c), true, CancelsThenCloses(c.current.value.request.callback)))
    ensures Ends(c, ClosedWith(c), Abandon(called).(closed := true))
  {
    var m := ClosingConn(c);
    CancelClosed(m);
    hide CancelRequest;
    if c.current.value.phase == Responding && CancelsThenCloses(c.current.value.request.callback) {
      EndsTwice(c, CancelRequest(m), called);
    } else {
      assert Like(called, CancelRequest(m));
      hide CancelsThenCloses, Twice;
    }
  }

  lemma {:induction false} EndsTwice(c: Conn, m: Conn, called: Conn)
    requires c.current.Some? && !c.current.value.canceled && c.current.value.phase == Responding && c.log.repeated == []
    requires CancelsThenCloses(c.current.value.request.callback)
    requires m == ClosingConn(c).(state := SentAttention, current := m.current, cancelTimer := m.cancelTimer)
    requires m.current.Some? && m.current.value.canceled && m.current.value.request == c.current.value.request
    requires Like(called, Twice(m))
    ensures Ends(c, ClosedWith(c), Abandon(called).(closed := true))
  {
    hide CancelsThenCloses;
  }

  /** Cancelling while closing sends nothing. */
  lemma {:induction false} CancelClosed(c: Conn)
    requires c.state == Final && c.current.Some? && !c.current.value.canceled && c.current.value.phase in {Sending, Sent, Responding}
    ensures
      var m := CancelRequest(c);
      && m == c.(state := if c.current.value.phase == Responding then SentAttention else Final, current := m.current,
                 requestTimer := c.requestTimer, cancelTimer := m.cancelTimer)
      && m.current.Some? && m.current.value.canceled && m.current.value.request == c.current.value.request
  {
    hide Weight;
    assert Told(c, c.current.value) == c.(cancelTimer := Told(c, c.current.value).cancelTimer);
  }

  lemma {:induction false} Closable(c: Conn)
    requires Inv(c) && c.current.Some?
    ensures CompletionOk(c.cfg, ClosedWith(c), LastSent(c))
  {
    hide HistoryOk, EndingOk, TimersOk, PayloadOk;
  }

  /** Closing keeps the invariant, completes the request in progress, and leaves none. */
  lemma {:induction false} CloseInv(c: Conn)
    requires Inv(c)
    ensures var r := GotoFinal(c); Inv(r) && r.closed && r.current.None?
    ensures GotoFinal(c).log.completed == c.log.completed + if c.current.Some? then [ClosedWith(c)] else []
  {
    if c.current.Some? {
      CloseEnds(c);
      Closable(c);
      hide Inv, GotoFinal, CompletionOk, Repeats;
      EndsInv(c, ClosedWith(c), GotoFinal(c));
    } else {
      FinalIdleInv(c);
      hide GotoFinal, HistoryOk, EndingOk, TimersOk;
    }
  }

  /** Closing, cancelling and the like on the way do not change what is recorded of other requests. */
  predicate Progress(c: Conn, r: Conn) {
    && c.current.Some? && r.current.Some? && r.current.value.request == c.current.value.request && InProgress(r.state)
    && r == c.(state := r.state, current := r.current, requestTimer := r.requestTimer, cancelTimer := r.cancelTimer,
               log := c.log.(wire := r.log.wire))
    && |r.log.wire| == |c.log.wire| && forall i | 0 <= i < |c.log.wire| - 1 :: r.log.wire[i] == c.log.wire[i]
  }

  lemma {:induction false} ProgressHistory(c: Conn, r: Conn)
    requires HistoryOk(c) && Progress(c, r)
    ensures HistoryOk(r)
  {
    hide CompletionOk;
    forall i | 0 <= i < |r.log.completed| ensures CompletionOk(r.cfg, r.log.completed[i], r.log.wire[i]) {
      assert r.log.wire[i] == c.log.wire[i];
    }
  }

  lemma {:induction false} ProgressInv(c: Conn, r: Conn)
    requires Inv(c) && Progress(c, r) && TimersOk(r) && CurrentOk(r, r.current.value, LastSent(r))
    ensures Inv(r)
  {
    ProgressHistory(c, r);
    hide HistoryOk, CurrentOk, TimersOk, Repeats, AbandonedOk;
  }

  lemma {:induction false} SendProgress(c: Conn, m: OnWire)
    requires Inv(c) && c.current.Some?
    ensures Progress(c, Send(c, m)) && Send(c, m).log.wire[|c.log.wire| - 1] == LastSent(c) + [m]
    ensures Send(c, m) == c.(log := c.log.(wire := Send(c, m).log.wire))
  {
    CurrentFacts(c);
    hide Inv;
  }

  lemma {:induction false} CutInv(c: Conn)
    requires Inv(c) && At(c, SentClientRequest, Sending) && !c.current.value.canceled
    ensures Inv(c.(current := Some(CutShort(c.current.value.(canceled := true)))))
  {
    var r := c.(current := Some(CutShort(c.current.value.(canceled := true))));
    assert TimersOk(r) && CurrentOk(r, r.current.value, LastSent(r)) by {
      hide HistoryOk, EndingOk;
    }
    hide Inv, TimersOk, CurrentOk;
    ProgressInv(c, r);
  }

  /** A cancel behind the message sends an attention; during the response it waits for its answer as well. */
  lemma {:induction false} AttendInv(c: Conn)
    requires Inv(c) && c.state == SentClientRequest && c.current.Some? && c.current.value.phase in {Sent, Responding} && !c.current.value.canceled
    ensures Inv(CancelRequest(c))
  {
    var id := c.current.value.request.id;
    var r := CancelRequest(c);
    CurrentFacts(c);
    SendProgress(c, Attention(id));
    assert Progress(c, r) && r.log.wire == Send(c, Attention(id)).log.wire by {
      hide Inv, Send, Weight;
    }
    assert TimersOk(r) && CurrentOk(r, r.current.value, LastSent(r)) by {
      hide HistoryOk, EndingOk, Send, Progress, Weight;
    }
    hide Inv, TimersOk, CurrentOk, CancelRequest, Progress;
    ProgressInv(c, r);
  }

  lemma {:induction false} CancelInv(c: Conn)
    requires Inv(c)
    ensures Inv(CancelRequest(c))
  {
    if c.current.Some? && !c.current.value.canceled {
      CurrentFacts(c);
      InSending(c);
      hide Inv, Weight;
      if c.current.value.phase == Sending {
        CutInv(c);
      } else {
        AttendInv(c);
      }
    }
  }

  lemma {:induction false} InSending(c: Conn)
    requires Inv(c) && c.current.Some? && c.current.value.phase in {Sending, Sent, Responding}
    ensures c.state == SentClientRequest
  {
    hide HistoryOk, EndingOk, TimersOk, SentFor, PayloadOk, CancelOk;
  }

  /** A request given up can still be cancelled; if its response was being read, that leads back to waiting for an attention. */
  lemma {:induction false} CancelAbandonedInv(c: Conn)
    requires Inv(c) && c.abandoned.Some?
    ensures Inv(CancelAbandoned(c))
  {
    AbandonedFacts(c);
    CancelAbandonedIs(c);
    var r := CancelAbandoned(c);
    hide CancelAbandoned;
    assert AbandonedOk(r, r.abandoned.value) by {
      hide HistoryOk, TimersOk, RequestOk, Repeats, SocketFlag;
    }
    assert HistoryOk(r) by {
      hide EndingOk, TimersOk, RequestOk, CompletionOk, Ids;
    }
    hide HistoryOk, AbandonedOk, Repeats;
  }

  lemma {:induction false} AbandonedFacts(c: Conn)
    requires Inv(c) && c.abandoned.Some?
    ensures c.closed && c.current.None? && c.state in {Final, SentAttention} && (!c.abandoned.value.canceled ==> c.state == Final)
    ensures !c.abandoned.value.canceled ==> c.abandoned.value.phase in {Sending, Sent, Responding}
    ensures !c.connectTimer && !c.attempt && !c.token && !c.retryTimer && !c.requestTimer
  {
    hide HistoryOk, RequestOk, Repeats;
  }

  lemma {:induction false} CancelAbandonedIs(c: Conn)
    requires c.abandoned.Some? && c.closed && c.current.None? && !c.requestTimer
    requires !c.abandoned.value.canceled ==> c.state == Final && c.abandoned.value.phase in {Sending, Sent, Responding}
    ensures
      var a, r := c.abandoned.value, CancelAbandoned(c);
      && r.abandoned.Some? && r.abandoned.value.canceled && r.abandoned.value.request == a.request && r.abandoned.value.phase == a.phase
      && r == c.(state := r.state, abandoned := r.abandoned, cancelTimer := r.cancelTimer)
      && r.state == (if !a.canceled && a.phase == Responding then SentAttention else c.state)
      && (r.cancelTimer == c.cancelTimer || (!a.canceled && a.phase != Sending))
  {
  }

  lemma {:induction false} CancelLastInv(c: Conn)
    requires Inv(c)
    ensures Inv(CancelTheLast(c))
  {
    hide Inv, Weight;
    if c.current.Some? {
      CancelInv(c);
    } else if c.abandoned.Some? {
      CancelAbandonedInv(c);
    }
  }

  lemma {:induction false} AcceptInv(c: Conn, q: Request)
    requires Inv(c) && c.state == LoggedIn
    ensures Inv(Accept(c, q))
  {
    hide CompletionOk, Repeats;
    var r := Accept(c, q);
    assert Ids(r.log.completed) + [] == Ids(c.log.completed);
    assert LastSent(r) == [];
    forall i | 0 <= i < |r.log.completed| ensures CompletionOk(r.cfg, r.log.completed[i], r.log.wire[i]) {
      assert r.log.wire[i] == c.log.wire[i];
    }
  }

  lemma {:induction false} RefuseInv(c: Conn, q: Request)
    requires Inv(c)
    ensures Inv(TurnAway(c, q))
  {
    hide Inv;
    LikeInv(TurnAway(c, q), c);
  }

  /** Whatever a callback does, to any depth. */
  lemma {:induction false} ScriptInv(c: Conn, s: Script)
    requires Inv(c)
    ensures Inv(RunScript(c, s))
    decreases s
  {
    hide Inv, Act;
    if s.Do? {
      ActInv(c, s.action);
      ScriptInv(Act(c, s.action), s.rest);
    }
  }

  lemma {:induction false} ActInv(c: Conn, a: Action)
    requires Inv(c)
    ensures Inv(Act(c, a))
    decreases a
  {
    hide Inv, RunScript, MakeRequest, GotoFinal, CancelRequest, CancelTheLast;
    match a
    case Close => CloseInv(c);
    case Make(q) => MakeInv(c, q);
    case Cancel => CancelInv(c);
    case CancelLast => CancelLastInv(c);
  }

  lemma {:induction false} TakeInv(c: Conn, q: Request)
    requires Inv(c) && c.state == LoggedIn
    ensures Inv(Take(c, q))
  {
    hide Inv, Accept;
    if q.canceled {
      LikeInv(Take(c, q), c);
    } else {
      AcceptInv(c, q);
    }
  }

  lemma {:induction false} MakeInv(c: Conn, q: Request)
    requires Inv(c)
    ensures Inv(MakeRequest(c, q))
    decreases q
  {
    hide Inv, RunScript, TurnAway, Hand, Take;
    if c.state == LoggedIn {
      LikeInv(Hand(c, q), c);
      TakeInv(Hand(c, q), q);
    } else {
      RefuseInv(c, q);
      ScriptInv(TurnAway(c, q), q.callback);
    }
  }

  // Events, one kind at a time.

  /** A request whose outcome is settled leaves the connection logged in, and then calls back. */
  lemma {:induction false} SettleInv(c: Conn, d: Completion, idle: Conn)
    requires Inv(c) && c.current == Some(d.current) && !GivenUp(d) && CompletionOk(c.cfg, d, LastSent(c))
    requires idle == c.(state := LoggedIn, current := None, requestTimer := false, cancelTimer := Unset)
    ensures
      var m := Complete(idle, d.current, d.outcome, d.how);
      Inv(m) && m.log.completed == c.log.completed + [d]
  {
    CurrentFacts(c);
    CompletedOne(c, d);
    NoneGivenUp(c);
    var m := Complete(idle, d.current, d.outcome, d.how);
    assert m.log == Complete(c, d.current, d.outcome, d.how).log;
    assert SocketFlag(m) && TimersOk(m) && RequestOk(m) by {
      hide HistoryOk, EndingOk, CurrentOk, CompletionOk;
    }
    assert HistoryOk(m) by {
      hide EndingOk, CompletionOk, TimersOk, RequestOk, Ids;
      assert HistoryOk(Complete(c, d.current, d.outcome, d.how).(current := None));
    }
    hide HistoryOk, CompletionOk, TimersOk, RequestOk, Repeats, AbandonedOk;
  }

  lemma {:induction false} SettledRun(c: Conn, d: Completion, idle: Conn)
    requires Inv(c) && c.current == Some(d.current) && !GivenUp(d) && CompletionOk(c.cfg, d, LastSent(c))
    requires idle == c.(state := LoggedIn, current := None, requestTimer := false, cancelTimer := Unset)
    ensures var r := CallBack(idle, d.current, d.outcome, d.how); Inv(r) && c.log.completed + [d] <= r.log.completed
  {
    hide Inv, CompletionOk, RunScript, Complete, GivenUp;
    SettleInv(c, d, idle);
    var m := Complete(idle, d.current, d.outcome, d.how);
    ScriptInv(m, d.current.request.callback);
    ScriptGrows(m, d.current.request.callback);
  }

  lemma {:induction false} ResponseCompletion(c: Conn)
    requires Inv(c) && Enabled(c, ResponseEnded)
    ensures CompletionOk(c.cfg, Completion(c.current.value, c.current.value.error, EndOfMessage), LastSent(c))
    ensures c.cancelTimer == Unset && !c.requestTimer
  {
    hide HistoryOk, EndingOk, SocketFlag;
  }

  /** A response that ends completes its request with its own error, if it has one, whatever the callback does next. */
  lemma {:induction false} ResponseEndedInv(c: Conn)
    requires Inv(c) && c.current.Some? && Enabled(c, ResponseEnded)
    ensures Inv(Next(c, ResponseEnded))
    ensures c.log.completed + [Completion(c.current.value, c.current.value.error, EndOfMessage)] <= Next(c, ResponseEnded).log.completed
  {
    var cur := c.current.value;
    ResponseCompletion(c);
    var d := Completion(cur, cur.error, EndOfMessage);
    hide Inv, CompletionOk, CallBack, Next, Enabled;
    var idle := Goto(c, LoggedIn).(current := None);
    SettledRun(c, d, idle);
    ResponseIs(c);
  }

  lemma {:induction false} AttentionCompletion(c: Conn)
    requires Inv(c) && Enabled(c, AttentionResponse(true))
    ensures CompletionOk(c.cfg, Completion(c.current.value, Some(AcknowledgedWith(c.current.value)), Acknowledged), LastSent(c))
    ensures !c.requestTimer
  {
    hide HistoryOk, EndingOk, SocketFlag;
  }

  /** The acknowledgement of the attention completes the request, with ETIMEOUT if its timer fired, and else with ECANCEL. */
  lemma {:induction false} AttentionInv(c: Conn)
    requires Inv(c) && c.current.Some? && Enabled(c, AttentionResponse(true))
    ensures Inv(Next(c, AttentionResponse(true)))
    ensures
      var cur := c.current.value;
      c.log.completed + [Completion(cur, Some(if cur.timedOut then ETIMEOUT else ECANCEL), Acknowledged)]
        <= Next(c, AttentionResponse(true)).log.completed
  {
    var cur := c.current.value;
    AttentionCompletion(c);
    TimedOutError(c);
    var d := Completion(cur, Some(AcknowledgedWith(cur)), Acknowledged);
    hide Inv, CompletionOk, CallBack, Next, Enabled;
    var idle := Goto(c, LoggedIn).(current := None, cancelTimer := Unset);
    SettledRun(c, d, idle);
    AttentionIs(c);
  }

  lemma {:induction false} TimedOutError(c: Conn)
    requires Inv(c) && c.current.Some?
    ensures c.current.value.error == Some(ETIMEOUT) <==> c.current.value.timedOut
  {
    hide HistoryOk, EndingOk, SocketFlag, TimersOk, SentFor, CancelOk;
  }

  /** Callbacks add to what has completed, and take nothing away. */
  lemma {:induction false} ScriptGrows(c: Conn, s: Script)
    requires Inv(c)
    ensures c.log.completed <= RunScript(c, s).log.completed
    decreases s
  {
    hide Inv, Act;
    if s.Do? {
      ActInv(c, s.action);
      ActGrows(c, s.action);
      ScriptGrows(Act(c, s.action), s.rest);
    }
  }

  lemma {:induction false} ActGrows(c: Conn, a: Action)
    requires Inv(c)
    ensures c.log.completed <= Act(c, a).log.completed
    decreases a
  {
    Acts(c, a, Nothing);
    hide Inv, RunScript, GotoFinal, CancelRequest, CancelTheLast, Act;
    match a
    case Close => CloseInv(c);
    case Make(q) =>
      if c.state == LoggedIn {
        LoggedInMake(c, q);
      } else {
        RefuseInv(c, q);
        ScriptGrows(TurnAway(c, q), q.callback);
      }
    case Cancel => CancelTouches(c);
    case CancelLast => CancelLastTouches(c);
  }

  function LostWith(cur: Current, code: Code): Completion {
    Completion(cur, Some(code), Lost)
  }

  lemma {:induction false} Losable(c: Conn, code: Code)
    requires Inv(c) && c.current.Some? && (code == SocketFailure || (code == CancelTimedOut && c.cfg.cancelTimeout))
    ensures CompletionOk(c.cfg, LostWith(c.current.value, code), LastSent(c))
  {
    hide HistoryOk, EndingOk, TimersOk, PayloadOk;
  }

  lemma {:induction false} LostEnds(c: Conn, code: Code, cancelTimer: Timer)
    requires Inv(c) && c.current.Some?
    ensures
      var r := Complete(GotoFinal(Abandon(c.(cancelTimer := cancelTimer))), c.current.value, Some(code), Lost);
      Ends(c, LostWith(c.current.value, code), r) && r.log.completed == c.log.completed + [LostWith(c.current.value, code)]
  {
    CurrentFacts(c);
    NoneGivenUp(c);
    hide Inv, RunScript, CancelsThenCloses;
  }

  /** The socket or the server is gone: the connection closes, and then the request is called back with what happened. */
  lemma {:induction false} LoseInv(c: Conn, code: Code, cancelTimer: Timer)
    requires Inv(c) && c.current.Some? && (code == SocketFailure || (code == CancelTimedOut && c.cfg.cancelTimeout))
    ensures
      var r := LoseRequest(c.(cancelTimer := cancelTimer), code);
      Inv(r) && r.current.None? && r.closed && r.log.completed == c.log.completed + [LostWith(c.current.value, code)]
  {
    var cur := c.current.value;
    LostEnds(c, code, cancelTimer);
    Losable(c, code);
    var m := Complete(GotoFinal(Abandon(c.(cancelTimer := cancelTimer))), cur, Some(code), Lost);
    hide Inv, CompletionOk, GotoFinal, RunScript, Repeats, Abandon, Complete;
    EndsInv(c, LostWith(cur, code), m);
    ScriptInv(m, cur.request.callback);
    GoneScript(m, cur.request.callback);
    assert LoseRequest(c.(cancelTimer := cancelTimer), code) == RunScript(m, cur.request.callback);
  }

  lemma {:induction false} SocketErrorInv(c: Conn, code: Code)
    requires Inv(c) && c.state != Initialized
    requires c.current.Some? ==> code == SocketFailure || (code == CancelTimedOut && c.cfg.cancelTimeout)
    ensures
      var r := Dispatch(c, OnSocketError, code);
      && Inv(r) && r.closed && r.current.None?
      && r.log.completed == c.log.completed + if c.current.Some? then [LostWith(c.current.value, code)] else []
  {
    if c.current.Some? {
      CurrentFacts(c);
      assert c.(cancelTimer := c.cancelTimer) == c;
      hide Inv, LoseRequest;
      LoseInv(c, code, c.cancelTimer);
    } else if InProgress(c.state) {
      CrashInv(c, code);
    } else {
      hide Inv, GotoFinal;
      CloseInv(c);
    }
  }

  /** The handler looks for a request that was given up before, and misses it. */
  lemma {:induction false} CrashInv(c: Conn, code: Code)
    requires Inv(c) && InProgress(c.state) && c.current.None?
    ensures
      var r := LoseRequest(c, code);
      Inv(r) && r.closed && r.current.None? && r.log == c.log.(crashed := 1) && r.state == Final
  {
    assert c.state == SentAttention && c.closed && c.log.crashed == 0 by {
      hide HistoryOk, TimersOk, Repeats;
    }
    hide CompletionOk, CurrentOk, Ids, Repeats, RunScript;
  }

  /** The cancel timer fires only for a connection that goes down with it, or has gone down before. */
  lemma {:induction false} CancelTimerInv(c: Conn)
    requires Inv(c) && c.cancelTimer == Pending
    ensures
      var r := Next(c, CancelTimerFires);
      && Inv(r) && r.closed && r.current.None?
      && r.log.completed == c.log.completed + if c.current.Some? then [LostWith(c.current.value, CancelTimedOut)] else []
  {
    var m := c.(cancelTimer := Fired);
    PendingFacts(c);
    CancelTimerIs(c);
    hide Next, Enabled, LoseRequest;
    if c.current.Some? {
      CurrentFacts(c);
      hide Inv;
      LoseInv(c, CancelTimedOut, Fired);
    } else {
      FiredInv(c);
      hide Inv, Dispatch;
      SocketErrorInv(m, CancelTimedOut);
    }
  }

  lemma {:induction false} PendingFacts(c: Conn)
    requires Inv(c) && c.cancelTimer == Pending
    ensures c.current.Some? || (c.abandoned.Some? && c.state in {Final, SentAttention})
    ensures c.current.Some? ==> c.cfg.cancelTimeout
  {
    hide HistoryOk, CurrentOk, Repeats, SocketFlag;
  }

  lemma {:induction false} FiredInv(c: Conn)
    requires Inv(c) && c.cancelTimer == Pending && c.current.None?
    ensures Inv(c.(cancelTimer := Fired))
  {
    hide CompletionOk, Ids, Repeats;
  }

  /** The request timer finds its request, cancels it, and records the timeout as its error. */
  lemma {:induction false} RequestTimerInv(c: Conn)
    requires Inv(c) && c.requestTimer
    ensures Inv(Next(c, RequestTimerFires)) && Expired(c, Next(c, RequestTimerFires))
  {
    TimerFacts(c);
    RequestTimerIs(c);
    CancelUntimed(c);
    hide Inv, CancelRequest, Next, Enabled;
    CancelKeepsRequest(c);
    CancelInv(c);
    TimeOutInv(CancelRequest(c));
  }

  predicate Expired(c: Conn, r: Conn) {
    && c.current.Some? && r.current.Some? && r.current.value.request == c.current.value.request
    && r.current.value.canceled && r.current.value.timedOut && r.current.value.error == Some(ETIMEOUT)
  }

  lemma {:induction false} CancelUntimed(c: Conn)
    requires c.state == SentClientRequest && c.current.Some? && c.current.value.phase in {Sending, Sent}
    ensures CancelRequest(c.(requestTimer := false)) == CancelRequest(c).(requestTimer := false)
  {
    var cur, d := c.current.value, c.(requestTimer := false);
    ToldUntimed(c, cur);
    if !cur.canceled {
      assert CancelRequest(c) == Told(c, cur).(current := Some(Canceled(c, cur)));
      assert CancelRequest(d) == Told(d, cur).(current := Some(Canceled(d, cur)));
    }
    hide CancelRequest, Told, Canceled, Weight;
  }

  lemma {:induction false} ToldUntimed(c: Conn, cur: Current)
    ensures var d := c.(requestTimer := false); Told(d, cur) == Told(c, cur).(requestTimer := false) && Canceled(d, cur) == Canceled(c, cur)
  {
  }

  lemma {:induction false} TimerFacts(c: Conn)
    requires Inv(c) && c.requestTimer
    ensures c.state == SentClientRequest && c.current.Some? && c.current.value.phase in {Sending, Sent}
  {
    hide HistoryOk, EndingOk, PayloadOk, CancelOk, SentFor;
  }

  lemma {:induction false} CancelKeepsRequest(c: Conn)
    requires c.state == SentClientRequest && c.current.Some? && c.current.value.phase in {Sending, Sent}
    ensures
      var r := CancelRequest(c);
      && r.state == SentClientRequest && r.current.Some? && r.current.value.canceled
      && r.current.value.request == c.current.value.request && r.current.value.phase == c.current.value.phase
  {
    hide Weight;
  }

  /** A cancelled request that has not been answered can be marked as timed out. */
  lemma {:induction false} TimeOutInv(c: Conn)
    requires Inv(c) && c.state == SentClientRequest && c.current.Some? && c.current.value.canceled && c.current.value.phase in {Sending, Sent}
    ensures Inv(c.(requestTimer := false, current := Some(c.current.value.(error := Some(ETIMEOUT), timedOut := true))))
  {
    var r := c.(requestTimer := false, current := Some(c.current.value.(error := Some(ETIMEOUT), timedOut := true)));
    CurrentFacts(c);
    assert Progress(c, r) by {
      hide Inv;
    }
    assert TimersOk(r) && CurrentOk(r, r.current.value, LastSent(r)) by {
      hide HistoryOk, EndingOk;
    }
    hide Inv, TimersOk, CurrentOk, Progress;
    ProgressInv(c, r);
  }

  /** A step of the current request that only changes its own record. */
  lemma {:induction false} CurrentStep(c: Conn, r: Conn)
    requires Inv(c) && c.current.Some? && r.current.Some? && r == c.(current := r.current)
    requires r.current.value.request == c.current.value.request
    requires CurrentOk(r, r.current.value, LastSent(c)) && TimersOk(r)
    ensures Inv(r)
  {
    CurrentFacts(c);
    assert Progress(c, r) by {
      hide Inv, CurrentOk, TimersOk;
    }
    hide Inv, TimersOk, CurrentOk, Progress;
    ProgressInv(c, r);
  }

  lemma {:induction false} PayloadInv(c: Conn, e: Event)
    requires Inv(c) && Enabled(c, e) && (e.PayloadEnds? || e.PayloadBreaks? || e.PayloadErrorDelivered?)
    ensures Inv(OnSending(c, e))
  {
    var cur := c.current.value;
    var code := if e.PayloadBreaks? then PayloadFailure else ECANCEL;
    var x := if e.PayloadEnds? then cur.(payload := Over) else Failed(cur, code);
    assert OnSending(c, e) == c.(current := Some(x)) && (e.PayloadErrorDelivered? <==> cur.payload == Destroyed) by {
      hide Inv;
    }
    assert cur.payload in {Streaming, Destroyed};
    hide Enabled, OnSending;
    PayloadStep(c, x);
  }

  lemma {:induction false} PayloadStep(c: Conn, x: Current)
    requires Inv(c) && c.current.Some?
    requires
      var cur := c.current.value;
      || (cur.payload == Streaming && x in {cur.(payload := Over), Failed(cur, PayloadFailure)})
      || (cur.payload == Destroyed && x == Failed(cur, ECANCEL))
    ensures Inv(c.(current := Some(x)))
  {
    var r := c.(current := Some(x));
    assert CurrentOk(r, x, LastSent(c)) && TimersOk(r) by {
      hide HistoryOk, EndingOk, SocketFlag;
    }
    hide Inv, CurrentOk, TimersOk;
    CurrentStep(c, r);
  }

  lemma {:induction false} MessageFinishedInv(c: Conn)
    requires Inv(c) && Enabled(c, MessageFinished)
    ensures Inv(OnSending(c, MessageFinished))
  {
    var cur := c.current.value;
    assert At(c, SentClientRequest, Sending) && cur.payload != Streaming;
    var sent := Send(c, Message(cur.request.id, cur.cut));
    var r := sent.(current := Some(cur.(phase := Sent)));
    assert OnSending(c, MessageFinished) == r;
    SendProgress(c, Message(cur.request.id, cur.cut));
    hide Enabled, OnSending, Send;
    assert Progress(c, r) by {
      hide Inv, TimersOk, CurrentOk;
    }
    hide Progress;
    assert CurrentOk(c, cur, LastSent(c)) && TimersOk(c);
    hide Inv;
    FinishedOk(c, cur, LastSent(c), r);
    hide TimersOk, CurrentOk;
    ProgressInv(c, r);
  }

  lemma {:induction false} FinishedOk(c: Conn, cur: Current, sent: seq<OnWire>, r: Conn)
    requires TimersOk(c) && c.current == Some(cur) && CurrentOk(c, cur, sent) && cur.phase == Sending && cur.payload != Streaming
    requires r == c.(current := Some(cur.(phase := Sent)), log := r.log)
    ensures TimersOk(r) && CurrentOk(r, r.current.value, sent + [Message(cur.request.id, cur.cut)])
  {
  }

  lemma {:induction false} ResponseStartedInv(c: Conn)
    requires Inv(c) && Enabled(c, ResponseStarted)
    ensures Inv(OnResponse(c, ResponseStarted))
  {
    CurrentFacts(c);
    var cur := c.current.value;
    var waits := cur.canceled && c.cancelTimer != Unset;
    var x := cur.(phase := if waits then Acknowledging else Responding);
    var r := c.(state := if waits then SentAttention else SentClientRequest, current := Some(x), requestTimer := false);
    assert OnResponse(c, ResponseStarted) == r by {
      hide Inv, CallBack;
    }
    assert c.state == SentClientRequest && cur.phase == Sent;
    hide OnResponse, Enabled;
    assert CurrentOk(c, cur, LastSent(c)) && TimersOk(c);
    hide Inv;
    StartedOk(c, cur, LastSent(c), r);
    hide CurrentOk, TimersOk;
    ProgressInv(c, r);
  }

  lemma {:induction false} StartedOk(c: Conn, cur: Current, sent: seq<OnWire>, r: Conn)
    requires TimersOk(c) && c.current == Some(cur) && CurrentOk(c, cur, sent) && c.state == SentClientRequest && c.abandoned.None?
    requires cur.phase == Sent
    requires
      var waits := cur.canceled && c.cancelTimer != Unset;
      r == c.(state := if waits then SentAttention else SentClientRequest, requestTimer := false,
              current := Some(cur.(phase := if waits then Acknowledging else Responding)))
    ensures TimersOk(r) && CurrentOk(r, r.current.value, sent)
  {
    assert cur.canceled && c.cancelTimer != Unset ==> cur.attention && c.cfg.cancelTimeout;
    hide SentFor;
  }

  lemma {:induction false} ResponseInv(c: Conn, e: Event)
    requires Inv(c) && Enabled(c, e) && (e.ErrorToken? || e == AttentionResponse(false))
    ensures Inv(OnResponse(c, e))
  {
    var cur := c.current.value;
    var x := if e.ErrorToken? then if cur.canceled then cur else cur.(error := Some(EREQUEST)) else cur.(phase := Deaf);
    assert cur.phase == (if e.ErrorToken? then Responding else Acknowledging);
    OnResponseIs(c, e, x);
    hide Enabled, OnResponse;
    assert CurrentOk(c, cur, LastSent(c)) && TimersOk(c);
    hide Inv;
    if e.ErrorToken? {
      ErrorOk(c, cur, LastSent(c));
    } else {
      DeafOk(c, cur, LastSent(c));
    }
    hide CurrentOk, TimersOk;
    CurrentStep(c, c.(current := Some(x)));
  }

  lemma {:induction false} ErrorOk(c: Conn, cur: Current, sent: seq<OnWire>)
    requires TimersOk(c) && c.current == Some(cur) && CurrentOk(c, cur, sent) && cur.phase == Responding
    ensures
      var r := c.(current := Some(if cur.canceled then cur else cur.(error := Some(EREQUEST))));
      TimersOk(r) && CurrentOk(r, r.current.value, sent)
  {
    hide SentFor;
  }

  lemma {:induction false} DeafOk(c: Conn, cur: Current, sent: seq<OnWire>)
    requires TimersOk(c) && c.current == Some(cur) && CurrentOk(c, cur, sent) && cur.phase == Acknowledging
    ensures
      var r := c.(current := Some(cur.(phase := Deaf)));
      TimersOk(r) && CurrentOk(r, r.current.value, sent)
  {
    hide SentFor;
  }

  lemma {:induction false} AbandonedFinishedInv(c: Conn)
    requires Inv(c) && c.abandoned.Some? && c.abandoned.value.phase == Sending
    ensures Inv(c.(abandoned := Some(c.abandoned.value.(phase := Sent))))
  {
    var r := c.(abandoned := Some(c.abandoned.value.(phase := Sent)));
    assert AbandonedOk(r, r.abandoned.value) by {
      hide HistoryOk, TimersOk, RequestOk, Repeats, SocketFlag;
    }
    assert HistoryOk(r) by {
      hide EndingOk, TimersOk, RequestOk, CompletionOk, Ids;
    }
    hide HistoryOk, AbandonedOk, Repeats, CurrentOk;
  }

  // Connecting and logging in.

  predicate NoRequest(c: Conn) {
    c.current.None? && c.abandoned.None?
  }

  /** A step between states without a request. */
  lemma {:induction false} MoveInv(c: Conn, r: Conn)
    requires Inv(c) && NoRequest(c)
    requires r == c.(state := r.state, closed := r.closed, attempt := r.attempt, token := r.token, connectTimer := r.connectTimer,
                     requestTimer := false, retryTimer := r.retryTimer, retries := r.retries)
    requires SocketFlag(r) && TimersOk(r) && !InProgress(r.state) && r.retries <= r.cfg.maxRetries
    ensures Inv(r)
  {
    hide CompletionOk, Ids, SocketFlag, TimersOk, Repeats;
  }

  lemma {:induction false} NoRequestFacts(c: Conn)
    requires Inv(c)
    ensures c.state !in {SentClientRequest, SentAttention, Final} ==> NoRequest(c)
    ensures c.connectTimer || c.attempt || c.retryTimer || c.token ==> NoRequest(c)
    ensures c.current.None? ==> !c.requestTimer
    ensures NoRequest(c) ==> c.cancelTimer == Unset
  {
    hide HistoryOk, CurrentOk, Repeats;
  }

  lemma {:induction false} ConnectingInv(c: Conn)
    requires Inv(c) && NoRequest(c) && c.state in {Initialized, Rerouting, TransientFailureRetry, Final}
    requires !c.connectTimer && !c.attempt && !c.retryTimer && !c.token
    ensures Inv(GotoConnecting(c))
  {
    NoRequestFacts(c);
    assert SocketFlag(GotoConnecting(c)) && TimersOk(GotoConnecting(c)) by {
      hide HistoryOk, EndingOk, RequestOk;
    }
    hide Inv, SocketFlag, TimersOk;
    MoveInv(c, GotoConnecting(c));
  }

  /** Listeners of a connection without a request either close it or change nothing. */
  lemma {:induction false} ListenerInv(c: Conn, listener: Script)
    requires Inv(c) && NoRequest(c) && c.state != LoggedIn
    ensures Inv(RunScript(c, listener)) && Idle(RunScript(c, listener))
    ensures Like(RunScript(c, listener), AfterIdle(c, Closes(listener)))
  {
    IdleScript(c, listener);
    LikeIdle(RunScript(c, listener), AfterIdle(c, Closes(listener)), false) by {
      IdleFinal(c);
    }
    hide Inv, RunScript, Like, Closes;
    ScriptInv(c, listener);
  }

  /** Telling the listeners that connecting failed, and closing. */
  lemma {:induction false} GiveUpInv(c: Conn, listener: Script)
    requires Inv(c)
    ensures Inv(GotoFinal(RunScript(c, listener)))
  {
    hide Inv, RunScript, GotoFinal;
    ScriptInv(c, listener);
    CloseInv(RunScript(c, listener));
  }

  lemma {:induction false} ReconnectingInv(c: Conn, s: State, listener: Script)
    requires Inv(c) && LoggingIn(c.state) && !c.closed && !c.token && s in {Rerouting, TransientFailureRetry}
    requires s == TransientFailureRetry ==> c.retries > 0
    ensures Inv(GotoReconnecting(c, s, listener))
  {
    NoRequestFacts(c);
    var m := ClearTimers(Goto(c, s));
    var script := if s == Rerouting then listener else Nothing;
    IdleScript(m, script);
    var r := GotoReconnecting(c, s, listener);
    var x := if Closes(script) then m.(state := Final, closed := true) else m.(closed := true);
    assert Like(r, x) by {
      hide Inv, Closes;
    }
    assert SocketFlag(x) && TimersOk(x) by {
      hide HistoryOk, EndingOk, RequestOk, RunScript, Like;
    }
    hide Inv, SocketFlag, TimersOk, RunScript, Closes, GotoReconnecting;
    MoveInv(c, x);
    LikeInv(r, x);
  }

  lemma {:induction false} LoginInv(c: Conn, reply: LoginReply, listener: Script)
    requires Inv(c) && Enabled(c, LoginResponse(reply, listener))
    ensures Inv(OnLogin(c, reply, listener))
  {
    assert LoggingIn(c.state) && !c.closed && !c.token && (reply.FedAuthInfo? ==> c.state == SentLogin7WithFedAuth);
    hide Inv, RunScript, GotoFinal, GotoReconnecting, Goto, Enabled;
    NoRequestFacts(c);
    match reply
    case AckRerouted => ReconnectingInv(c, Rerouting, listener);
    case LoginError(transient) => LoginErrorInv(c, transient, listener);
    case NoAck => GiveUpInv(c, listener);
    case Ack => Moves(c, LoggedInSendingInitialSql);
    case FedAuthInfo => TokenInv(c, true);
    case Challenge =>
  }

  /** Waiting for a security token, or waiting no more. */
  lemma {:induction false} TokenInv(c: Conn, token: bool)
    requires Inv(c) && NoRequest(c) && (c.state == SentLogin7WithFedAuth || !token)
    ensures Inv(c.(token := token))
  {
    NoRequestFacts(c);
    var r := c.(token := token);
    assert SocketFlag(r) && TimersOk(r) && !InProgress(r.state) by {
      hide HistoryOk, EndingOk, CurrentOk;
    }
    hide Inv, SocketFlag, TimersOk;
    MoveInv(c, r);
  }

  /** A token arrives in whatever state it finds the connection. */
  lemma {:induction false} TokenArrivesInv(c: Conn)
    requires Inv(c) && c.token
    ensures Inv(OnConnecting(c, TokenArrives))
  {
    NoRequestFacts(c);
    var r := Goto(c.(token := false), SentLogin7WithStandardLogin);
    assert SocketFlag(r) && TimersOk(r) by {
      hide HistoryOk, EndingOk, RequestOk;
    }
    hide Inv, SocketFlag, TimersOk;
    MoveInv(c, r);
  }

  lemma {:induction false} TokenFailsInv(c: Conn, listener: Script)
    requires Inv(c) && c.token
    ensures Inv(OnConnecting(c, TokenFails(listener)))
  {
    TokenFailsIs(c, listener);
    hide Inv, RunScript, GotoFinal, OnConnecting;
    NoRequestFacts(c);
    TokenInv(c, false);
    GiveUpInv(c.(token := false), listener);
  }

  lemma {:induction false} LoginErrorInv(c: Conn, transient: bool, listener: Script)
    requires Inv(c) && LoggingIn(c.state) && !c.closed && !c.token
    ensures Inv(OnLogin(c, LoginError(transient), listener))
  {
    hide Inv, RunScript, GotoFinal, GotoReconnecting;
    NoRequestFacts(c);
    if transient && c.retries != c.cfg.maxRetries {
      OnceMoreInv(c);
      ReconnectingInv(c.(retries := c.retries + 1), TransientFailureRetry, listener);
    } else {
      GiveUpInv(c, listener);
    }
  }

  lemma {:induction false} OnceMoreInv(c: Conn)
    requires Inv(c) && NoRequest(c) && c.retries != c.cfg.maxRetries && LoggingIn(c.state)
    ensures Inv(c.(retries := c.retries + 1))
  {
    NoRequestFacts(c);
    assert SocketFlag(c.(retries := c.retries + 1)) && TimersOk(c.(retries := c.retries + 1)) && c.retries < c.cfg.maxRetries by {
      hide HistoryOk, EndingOk, RequestOk;
    }
    hide Inv, SocketFlag, TimersOk;
    MoveInv(c, c.(retries := c.retries + 1));
  }

  /** On from one state with a socket to another, ahead of being logged in. */
  lemma {:induction false} Moves(c: Conn, s: State)
    requires Inv(c) && NoRequest(c) && !c.closed && !c.token && (LoggingIn(c.state) || c.state in {SentPrelogin, SentTlsSslNegotiation})
    requires s == LoginState(c.cfg) || s in {SentTlsSslNegotiation, LoggedInSendingInitialSql}
    ensures Inv(Goto(c, s))
  {
    NoRequestFacts(c);
    assert SocketFlag(Goto(c, s)) && TimersOk(Goto(c, s)) by {
      hide HistoryOk, EndingOk, RequestOk;
    }
    hide Inv, SocketFlag, TimersOk;
    MoveInv(c, Goto(c, s));
  }

  lemma {:induction false} UserInv(c: Conn, e: Event)
    requires Inv(c) && Enabled(c, e)
    requires e.UserConnect? || e.UserClose? || e.UserCancel? || e.UserCancelLast? || e.UserMakeRequest? || e.NextTick?
    ensures Inv(Next(c, e))
  {
    match e
    case UserConnect =>
      if c.state == Initialized {
        StartFacts(c);
        ConnectingInv(c);
      }
    case UserClose => CloseInv(c);
    case UserCancel => CancelInv(c);
    case UserCancelLast => CancelLastInv(c);
    case UserMakeRequest(q) => MakeInv(c, q);
    case NextTick =>
      var q := c.deferred[0];
      var m := Refuse(c.(deferred := c.deferred[1..]), q.id, ECANCEL);
      LikeInv(m, c);
      hide Inv, RunScript;
      ScriptInv(m, q.callback);
  }

  lemma {:induction false} StartFacts(c: Conn)
    requires Inv(c) && c.state in {Initialized, Rerouting}
    ensures NoRequest(c) && !c.connectTimer && !c.attempt && !c.retryTimer && !c.token
  {
    hide HistoryOk, CurrentOk, Repeats;
  }

  /** An attempt that succeeds goes on from the state it finds: the connection may have been closed in between. */
  lemma {:induction false} ConnectDoneInv(c: Conn)
    requires Inv(c) && c.attempt
    ensures Inv(OnConnecting(c, ConnectDone))
  {
    NoRequestFacts(c);
    var r := Goto(c.(closed := false, attempt := false), SentPrelogin);
    assert SocketFlag(r) && TimersOk(r) && r.requestTimer == false by {
      hide HistoryOk, EndingOk, RequestOk;
    }
    hide Inv, SocketFlag, TimersOk;
    MoveInv(c, r);
  }

  lemma {:induction false} AttemptOverInv(c: Conn, connectTimer: bool)
    requires Inv(c) && NoRequest(c) && (connectTimer ==> c.connectTimer)
    ensures Inv(c.(attempt := false, connectTimer := connectTimer))
  {
    var r := c.(attempt := false, connectTimer := connectTimer);
    NoRequestFacts(c);
    assert SocketFlag(r) && TimersOk(r) && !InProgress(r.state) by {
      hide HistoryOk, EndingOk, CurrentOk;
    }
    hide Inv, SocketFlag, TimersOk;
    MoveInv(c, r);
  }

  lemma {:induction false} InitialSqlInv(c: Conn, listener: Script)
    requires Inv(c) && c.state == LoggedInSendingInitialSql
    ensures Inv(RunScript(Goto(c, LoggedIn).(connectTimer := false), listener))
  {
    NoRequestFacts(c);
    var r := Goto(c, LoggedIn).(connectTimer := false);
    assert SocketFlag(r) && TimersOk(r) by {
      hide HistoryOk, EndingOk, RequestOk;
    }
    hide Inv, SocketFlag, TimersOk, RunScript;
    MoveInv(c, r);
    ScriptInv(r, listener);
  }

  lemma {:induction false} PreloginInv(c: Conn, reply: PreloginReply, listener: Script)
    requires Inv(c) && c.state == SentPrelogin
    ensures Inv(OnConnecting(c, PreloginResponse(reply, listener)))
  {
    PreloginIs(c, reply, listener);
    hide Inv, RunScript, GotoFinal, Goto, OnConnecting;
    NoRequestFacts(c);
    SocketOpen(c);
    match reply
    case Unencryptable => GiveUpInv(c, listener);
    case NeedsTls => Moves(c, SentTlsSslNegotiation);
    case Plain => Moves(c, LoginState(c.cfg));
  }

  lemma {:induction false} LookupFailedInv(c: Conn, listener: Script)
    requires Inv(c) && c.attempt
    ensures Inv(OnConnecting(c, LookupFailed(listener)))
  {
    NoRequestFacts(c);
    hide Inv, RunScript;
    AttemptOverInv(c, false);
    ScriptInv(c.(attempt := false, connectTimer := false), listener);
  }

  lemma {:induction false} SocketOpen(c: Conn)
    requires Inv(c) && c.state in {SentPrelogin, SentTlsSslNegotiation}
    ensures !c.closed && !c.token
  {
    hide HistoryOk, EndingOk, RequestOk;
  }

  lemma {:induction false} TlsDoneInv(c: Conn)
    requires Inv(c) && c.state == SentTlsSslNegotiation
    ensures Inv(OnConnecting(c, TlsDone))
  {
    NoRequestFacts(c);
    SocketOpen(c);
    hide Inv, Goto;
    Moves(c, LoginState(c.cfg));
  }

  lemma {:induction false} AttemptFailedInv(c: Conn)
    requires Inv(c) && c.attempt
    ensures Inv(OnConnecting(c, ConnectFailed))
  {
    NoRequestFacts(c);
    hide Inv;
    AttemptOverInv(c, false);
  }

  lemma {:induction false} ConnectInv(c: Conn, e: Event)
    requires Inv(c) && Enabled(c, e)
    requires OfConnecting(e)
    ensures Inv(OnConnecting(c, e))
  {
    hide Inv, OnConnecting;
    match e
    case ConnectDone => ConnectDoneInv(c);
    case ConnectFailed => AttemptFailedInv(c);
    case LookupFailed(listener) => LookupFailedInv(c, listener);
    case PreloginResponse(reply, listener) => PreloginInv(c, reply, listener);
    case TlsDone => TlsDoneInv(c);
    case LoginResponse(reply, listener) =>
      LoginInv(c, reply, listener);
      assert OnConnecting(c, e) == OnLogin(c, reply, listener) by {
        LoginIs(c, reply, listener);
      }
    case TokenArrives => TokenArrivesInv(c);
    case TokenFails(listener) => TokenFailsInv(c, listener);
    case InitialSqlDone(listener) =>
      InitialSqlInv(c, listener);
      InitialSqlIs(c, listener);
  }

  lemma {:induction false} ConnectTimerInv(c: Conn, listener: Script)
    requires Inv(c) && c.connectTimer
    ensures Inv(Next(c, ConnectTimerFires(listener)))
  {
    NoRequestFacts(c);
    TimerState(c);
    ConnectTimerIs(c, listener);
    hide Inv, RunScript, GotoFinal, Idle, Like, Next, Enabled, Dispatch, Closes;
    var m := c.(attempt := false);
    AttemptOverInv(c, c.connectTimer);
    NotIdle(m);
    ListenerInv(m, listener);
    var n := RunScript(m, listener);
    ListenerState(m, n, listener);
    AttemptOverInv(n, false);
    TimedOut(n.(attempt := false, connectTimer := false));
  }

  lemma {:induction false} TimedOut(c: Conn)
    requires Inv(c) && Handles(c.state, OnConnectTimeout)
    ensures Inv(Dispatch(c, OnConnectTimeout, ETIMEOUT))
  {
    hide Inv, GotoFinal;
    CloseInv(c);
  }

  lemma {:induction false} NotIdle(c: Conn)
    requires NoRequest(c) && c.state != LoggedIn
    ensures Idle(c)
  {
  }

  lemma {:induction false} TimerState(c: Conn)
    requires Inv(c)
    ensures c.connectTimer ==> Handles(c.state, OnConnectTimeout)
    ensures c.retryTimer ==> c.state in {TransientFailureRetry, Final} && !c.connectTimer && !c.attempt && !c.token
  {
    hide HistoryOk, EndingOk, RequestOk, SocketFlag;
  }

  /** Where listeners leave a connection without a request. */
  lemma {:induction false} ListenerState(c: Conn, r: Conn, listener: Script)
    requires Idle(c) && Like(r, AfterIdle(c, Closes(listener)))
    ensures NoRequest(r) && (r.state == c.state || r.state == Final)
    ensures r.attempt == c.attempt && r.token == c.token && (r.connectTimer ==> c.connectTimer) && (r.retryTimer ==> c.retryTimer)
    ensures r.state != Final ==> r.connectTimer == c.connectTimer
  {
    hide RunScript, Closes, Weight, Called;
  }

  lemma {:induction false} RetryTimerInv(c: Conn, listener: Script)
    requires Inv(c) && c.retryTimer
    ensures Inv(Next(c, RetryTimerFires(listener)))
  {
    NoRequestFacts(c);
    TimerState(c);
    var m := c.(retryTimer := false);
    RetryTimerIs(c, listener);
    hide Inv, RunScript, GotoConnecting, Idle, Like, Next, Enabled, Closes;
    RetriedInv(c);
    NotIdle(m);
    ListenerInv(m, listener);
    ListenerState(m, RunScript(m, listener), listener);
    ConnectingInv(RunScript(m, listener));
  }

  lemma {:induction false} RetriedInv(c: Conn)
    requires Inv(c) && c.retryTimer
    ensures Inv(c.(retryTimer := false))
  {
    NoRequestFacts(c);
    var r := c.(retryTimer := false);
    assert SocketFlag(r) && TimersOk(r) && !InProgress(r.state) by {
      hide HistoryOk, EndingOk, RequestOk;
    }
    hide Inv, SocketFlag, TimersOk;
    MoveInv(c, r);
  }

  lemma {:induction false} SocketDownInv(c: Conn, listener: Script)
    requires Inv(c) && c.state != Initialized
    ensures Inv(Dispatch(RunScript(c, listener), OnSocketError, SocketFailure))
  {
    ScriptInv(c, listener);
    NeverInitialized(c, listener);
    hide RunScript, Dispatch, Inv;
    SocketErrorInv(RunScript(c, listener), SocketFailure);
  }

  lemma {:induction false} SocketClosedInv(c: Conn)
    requires Inv(c) && c.state != Initialized
    ensures Inv(Next(c, SocketClose))
  {
    SocketCloseIs(c);
    NoRequestFacts(c);
    hide Inv, GotoFinal, GotoConnecting, Next, Enabled;
    if c.state == Rerouting {
      StartFacts(c);
      ConnectingInv(c);
    } else if c.state == TransientFailureRetry {
      RetryDueInv(c);
    } else {
      CloseInv(c);
    }
  }

  lemma {:induction false} RetryDueInv(c: Conn)
    requires Inv(c) && c.state == TransientFailureRetry
    ensures Inv(c.(retryTimer := true))
  {
    NoRequestFacts(c);
    var r := c.(retryTimer := true);
    assert SocketFlag(r) && TimersOk(r) by {
      hide HistoryOk, EndingOk, RequestOk;
    }
    hide Inv, SocketFlag, TimersOk;
    MoveInv(c, r);
  }

  /** Every event keeps the invariant. */
  lemma {:induction false} NextInv(c: Conn, e: Event)
    requires Inv(c) && Enabled(c, e)
    ensures Inv(Next(c, e))
  {
    hide Inv, Dispatch, RunScript, GotoFinal, CancelRequest, CancelTheLast, OnConnecting, OnResponse, OnSending, MakeRequest;
    match e
    case UserConnect => UserInv(c, e);
    case UserClose => UserInv(c, e);
    case UserCancel => UserInv(c, e);
    case UserCancelLast => UserInv(c, e);
    case UserMakeRequest(_) => UserInv(c, e);
    case NextTick => UserInv(c, e);
    case ConnectTimerFires(listener) => ConnectTimerInv(c, listener);
    case RequestTimerFires => RequestTimerInv(c);
    case CancelTimerFires => CancelTimerInv(c);
    case RetryTimerFires(listener) => RetryTimerInv(c, listener);
    case SocketError(listener) => SocketDownInv(c, listener);
    case SocketEnd(listener) => SocketDownInv(c, listener);
    case SocketClose => SocketClosedInv(c);
    case ResponseEnded => ResponseEndedInv(c);
    case AttentionResponse(acknowledged) =>
      if acknowledged {
        AttentionInv(c);
      } else {
        ResponseInv(c, e);
      }
    case MessageFinished => MessageFinishedInv(c);
    case AbandonedFinished => AbandonedFinishedInv(c);
    case PayloadEnds => PayloadInv(c, e);
    case PayloadBreaks => PayloadInv(c, e);
    case PayloadErrorDelivered => PayloadInv(c, e);
    case ResponseStarted => ResponseStartedInv(c);
    case ErrorToken => ResponseInv(c, e);
    case _ => ConnectInv(c, e);
  }
}
