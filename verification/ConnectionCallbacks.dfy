/**
 What callbacks and listeners do to a connection: they are called in the middle of
 an event, and may close the connection, make requests and cancel them, so that
 other callbacks are called, or their own a second time.
 */
module ConnectionCallbacks {
  import opened Wrappers
  import opened ConnectionSpec

  // What a callback does, told from its script.

  /** It closes, or the callback of a request that it makes does. */
  predicate Closes(s: Script) {
    s.Do? && (ActCloses(s.action) || Closes(s.rest))
  }

  predicate ActCloses(a: Action) {
    a == Close || (a.Make? && Closes(a.request.callback))
  }

  predicate Cancels(s: Script) {
    s.Do? && (ActCancels(s.action) || Cancels(s.rest))
  }

  predicate ActCancels(a: Action) {
    a == Cancel || a == CancelLast || (a.Make? && Cancels(a.request.callback))
  }

  /** It cancels, and closes after that. */
  predicate CancelsThenCloses(s: Script) {
    s.Do? && (ActDoesBoth(s.action) || (ActCancels(s.action) && Closes(s.rest)) || CancelsThenCloses(s.rest))
  }

  predicate ActDoesBoth(a: Action) {
    a.Make? && CancelsThenCloses(a.request.callback)
  }

  lemma {:induction false} CancelsThenClosesDoesBoth(s: Script)
    ensures CancelsThenCloses(s) ==> Cancels(s) && Closes(s)
  {
    if s.Do? {
      ActDoesBothDoes(s.action);
      CancelsThenClosesDoesBoth(s.rest);
      hide ActDoesBoth, ActCancels, ActCloses;
      var a, b, c := ActDoesBoth(s.action), ActCancels(s.action), ActCloses(s.action);
      assert CancelsThenCloses(s) == (a || (b && Closes(s.rest)) || CancelsThenCloses(s.rest));
      assert Cancels(s) == (b || Cancels(s.rest));
      assert Closes(s) == (c || Closes(s.rest));
    }
  }

  lemma {:induction false} ActDoesBothDoes(a: Action)
    ensures ActDoesBoth(a) ==> ActCancels(a) && ActCloses(a)
  {
    if a.Make? {
      CancelsThenClosesDoesBoth(a.request.callback);
    }
  }

  /** The same, except for the requests refused in between. */
  predicate Like(r: Conn, c: Conn) {
    r == c.(made := r.made)
  }

  lemma {:induction false} LikeFacts(a: Conn, b: Conn)
    requires Like(a, b)
    ensures a.state == b.state && a.current == b.current && Quiet(a) == Quiet(b) && Closing(a) == Closing(b)
  {
  }

  lemma {:induction false} LikeTwice(a: Conn, b: Conn)
    requires Like(a, b) && a.current.Some?
    ensures Like(Twice(a), Twice(b))
  {
  }

  lemma {:induction false} LikeWith(a: Conn, b: Conn, cur: Option<Current>)
    requires Like(a, b)
    ensures Like(a.(current := cur), b.(current := cur))
  {
  }

  lemma {:induction false} LikeAttention(a: Conn, b: Conn)
    requires Like(a, b)
    ensures Like(GotoAttention(a), GotoAttention(b))
  {
  }

  lemma {:induction false} LikeTold(a: Conn, b: Conn, cur: Current)
    requires Like(a, b)
    ensures Like(Told(a, cur), Told(b, cur)) && Canceled(a, cur) == Canceled(b, cur)
  {
  }

  lemma {:induction false} LikeCancel(a: Conn, b: Conn)
    requires Like(a, b)
    ensures Like(CancelRequest(a), CancelRequest(b))
  {
    LikeFacts(a, b);
    if b.current.Some? && !b.current.value.canceled {
      var cur := b.current.value;
      LikeTold(a, b, cur);
      hide Weight, Told, GotoAttention, Canceled, Like, Quiet, Closing;
      LikeWith(Told(a, cur), Told(b, cur), Some(Canceled(b, cur)));
      LikeAttention(Told(a, cur).(current := Some(Canceled(b, cur))), Told(b, cur).(current := Some(Canceled(b, cur))));
    }
  }

  lemma {:induction false} LikeLike(a: Conn, b: Conn, c: Conn)
    requires Like(a, b) && Like(b, c)
    ensures Like(a, c)
  {
  }

  lemma {:induction false} LikeRefused(c: Conn, q: Request)
    ensures Like(TurnAway(c, q), c)
  {
  }

  // Callbacks on a connection that has gone away.

  /** Nothing is left to close or to cancel. */
  predicate Quiet(c: Conn) {
    && c.state == Final && (c.current.Some? ==> c.current.value.canceled)
    && (c.current.None? && c.abandoned.Some? ==> c.abandoned.value.canceled)
  }

  lemma {:induction false} Acts(c: Conn, a: Action, rest: Script)
    ensures RunScript(c, Do(a, rest)) == RunScript(Act(c, a), rest)
    ensures a.Make? && c.state != LoggedIn ==> Act(c, a) == RunScript(TurnAway(c, a.request), a.request.callback)
    ensures a == Close ==> Act(c, a) == GotoFinal(c)
    ensures a == Cancel ==> Act(c, a) == CancelRequest(c)
    ensures a == CancelLast ==> Act(c, a) == CancelTheLast(c)
  {
    hide GotoFinal, CancelRequest, CancelTheLast;
    if a.Make? {
      assert Act(c, a) == MakeRequest(c, a.request);
    }
  }

  lemma {:induction false} QuietScript(c: Conn, s: Script)
    requires Quiet(c)
    ensures Like(RunScript(c, s), c)
    decreases s
  {
    if s.Do? {
      Acts(c, s.action, s.rest);
      QuietAct(c, s.action);
      var m := Act(c, s.action);
      if s.action.Make? {
        var q := s.action.request;
        var n := TurnAway(c, q);
        LikeRefused(c, q);
        LikeFacts(n, c);
        QuietScript(n, q.callback);
        LikeLike(m, n, c);
      }
      hide Act, Like, Quiet;
      LikeFacts(m, c);
      QuietScript(m, s.rest);
      LikeLike(RunScript(c, s), m, c);
    }
  }

  lemma {:induction false} QuietAct(c: Conn, a: Action)
    requires Quiet(c)
    ensures c.state != LoggedIn && (!a.Make? ==> Like(Act(c, a), c))
  {
    hide RunScript, MakeRequest;
  }

  /** The callback of closing is called again, and the request is given up for good. */
  function Twice(c: Conn): Conn
    requires c.current.Some?
  {
    ClearTimers(Goto(c, Final)).(
      current := None, abandoned := c.current, closed := true,
      log := c.log.(repeated := c.log.repeated + [Completion(c.current.value, Some(ECLOSE), Closed)]))
  }

  /** A closing connection: its request has been called back, and is still there. */
  predicate Closing(c: Conn) {
    !c.closed && c.current.Some? && |c.log.completed| >= |c.log.accepted|
  }

  lemma {:induction false} CloseAgain(c: Conn)
    requires Closing(c) && c.state == SentAttention && c.current.value.canceled
    ensures Like(GotoFinal(c), Twice(c))
  {
    var m := Complete(ClearTimers(Goto(c, Final)), c.current.value, Some(ECLOSE), Closed);
    QuietScript(m, c.current.value.request.callback);
    hide RunScript;
  }

  lemma {:induction false} AttentionAct(c: Conn, a: Action)
    requires Closing(c) && c.state == SentAttention && c.current.value.canceled
    ensures Like(Act(c, a), if ActCloses(a) then Twice(c) else c)
    decreases a
  {
    Acts(c, a, Nothing);
    assert c.current.Some?;
    hide RunScript, Act, GotoFinal, Like, Twice, Closing;
    match a
    case Close => CloseAgain(c);
    case Make(q) =>
      var n := TurnAway(c, q);
      LikeRefused(c, q);
      LikeFacts(n, c);
      LikeTwice(n, c);
      AttentionScript(n, q.callback);
      LikeLike(Act(c, a), if ActCloses(a) then Twice(n) else n, if ActCloses(a) then Twice(c) else c);
    case _ => LikeItself(c);
  }

  lemma {:induction false} AttentionScript(c: Conn, s: Script)
    requires Closing(c) && c.state == SentAttention && c.current.value.canceled
    ensures Like(RunScript(c, s), if Closes(s) then Twice(c) else c)
    decreases s
  {
    LikeItself(c);
    if s.Do? {
      Acts(c, s.action, s.rest);
      AttentionAct(c, s.action);
      QuietTwice(c);
      hide RunScript, Act, GotoFinal, Like, Twice, Closing, ActCloses, Quiet;
      var m := Act(c, s.action);
      if ActCloses(s.action) {
        LikeFacts(m, Twice(c));
        QuietScript(m, s.rest);
        LikeLike(RunScript(c, s), m, Twice(c));
      } else {
        LikeFacts(m, c);
        LikeTwice(m, c);
        AttentionScript(m, s.rest);
        LikeLike(RunScript(c, s), if Closes(s.rest) then Twice(m) else m, if Closes(s) then Twice(c) else c);
      }
    }
  }

  lemma {:induction false} LikeItself(c: Conn)
    ensures Like(c, c)
  {
  }

  lemma {:induction false} QuietTwice(c: Conn)
    requires c.current.Some? && c.current.value.canceled
    ensures Quiet(Twice(c))
  {
  }

  /** What a callback can do while closing: cancel the request, and if its response was being read, close again. */
  function AfterClosing(c: Conn, cancels: bool, both: bool): Conn
    requires c.current.Some?
  {
    if !cancels then c
    else if c.current.value.phase == Responding && both then Twice(CancelRequest(c))
    else CancelRequest(c)
  }

  predicate Cancelable(c: Conn) {
    Closing(c) && c.state == Final && !c.current.value.canceled && c.current.value.phase in {Sending, Sent, Responding}
  }

  lemma {:induction false} CancelClosing(c: Conn)
    requires Cancelable(c)
    ensures
      var m := CancelRequest(c);
      Closing(m) && m.current.value.canceled && m.state == if c.current.value.phase == Responding then SentAttention else Final
  {
    hide Weight, Told, CutShort, Attended;
    CancelMarks(c);
  }

  lemma {:induction false} CancelMarks(c: Conn)
    requires c.current.Some?
    ensures Canceled(c, c.current.value).canceled
  {
  }

  /** The rest of a script, once the request is cancelled. */
  lemma {:induction false} CanceledScript(c: Conn, m: Conn, s: Script)
    requires Cancelable(c) && Like(m, CancelRequest(c))
    ensures Like(RunScript(m, s), AfterClosing(c, true, Closes(s)))
  {
    var n := CancelRequest(c);
    assert c.current.Some?;
    CancelClosing(c);
    LikeFacts(m, n);
    LikeTwice(m, n);
    if c.current.value.phase == Responding {
      hide Like, Twice, Quiet, Closing, RunScript, CancelRequest;
      AttentionScript(m, s);
      LikeLike(RunScript(m, s), if Closes(s) then Twice(m) else m, if Closes(s) then Twice(n) else n);
    } else {
      QuietScript(m, s);
      hide Like, Twice, Closing, RunScript, CancelRequest;
      LikeLike(RunScript(m, s), m, n);
    }
  }

  lemma {:induction false} LikeAfter(a: Conn, b: Conn, cancels: bool, both: bool)
    requires Cancelable(b) && Like(a, b)
    ensures Cancelable(a) && Like(AfterClosing(a, cancels, both), AfterClosing(b, cancels, both))
  {
    LikeFacts(a, b);
    LikeCancel(a, b);
    CancelClosing(b);
    hide CancelRequest, Twice, Like;
    assert a.current == b.current;
    LikeFacts(CancelRequest(a), CancelRequest(b));
    LikeTwice(CancelRequest(a), CancelRequest(b));
  }

  lemma {:induction false} ClosingAct(c: Conn, a: Action)
    requires Cancelable(c)
    ensures Like(Act(c, a), AfterClosing(c, ActCancels(a), ActDoesBoth(a)))
    decreases a
  {
    Acts(c, a, Nothing);
    LikeItself(c);
    LikeItself(CancelRequest(c));
    assert a == Close ==> GotoFinal(c) == c;
    hide RunScript, Act, GotoFinal, Like, Twice, Closing, CancelRequest;
    if a.Make? {
      var q := a.request;
      var n := TurnAway(c, q);
      LikeRefused(c, q);
      LikeAfter(n, c, ActCancels(a), ActDoesBoth(a));
      ClosingScript(n, q.callback);
      LikeLike(Act(c, a), AfterClosing(n, ActCancels(a), ActDoesBoth(a)), AfterClosing(c, ActCancels(a), ActDoesBoth(a)));
    }
  }

  lemma {:induction false} ClosingScript(c: Conn, s: Script)
    requires Cancelable(c)
    ensures Like(RunScript(c, s), AfterClosing(c, Cancels(s), CancelsThenCloses(s)))
    decreases s
  {
    LikeItself(c);
    if s.Do? {
      var m := Act(c, s.action);
      Acts(c, s.action, s.rest);
      assert c.current.Some?;
      hide RunScript, Act, GotoFinal, Like, Twice, Closing, CancelRequest, Cancelable, Quiet, ActCancels, ActDoesBoth, ActCloses;
      ClosingAct(c, s.action);
      BothDo(s);
      assert Cancels(s) == (ActCancels(s.action) || Cancels(s.rest));
      assert CancelsThenCloses(s) == (ActDoesBoth(s.action) || (ActCancels(s.action) && Closes(s.rest)) || CancelsThenCloses(s.rest));
      hide Cancels, CancelsThenCloses;
      if !ActCancels(s.action) {
        LikeAfter(m, c, Cancels(s.rest), CancelsThenCloses(s.rest));
        ClosingScript(m, s.rest);
        LikeLike(RunScript(c, s), AfterClosing(m, Cancels(s.rest), CancelsThenCloses(s.rest)), AfterClosing(c, Cancels(s), CancelsThenCloses(s)));
      } else if c.current.value.phase == Responding && ActDoesBoth(s.action) {
        ClosingCalls(c, m, s.rest);
      } else {
        CanceledScript(c, m, s.rest);
      }
    }
  }

  /** The rest of a script, once it has done both. */
  lemma {:induction false} ClosingCalls(c: Conn, m: Conn, rest: Script)
    requires Cancelable(c) && c.current.Some? && c.current.value.phase == Responding && Like(m, AfterClosing(c, true, true))
    ensures Like(RunScript(m, rest), AfterClosing(c, true, true))
  {
    CancelClosing(c);
    var n := CancelRequest(c);
    assert n.current.Some?;
    hide RunScript, Like, Twice, Closing, CancelRequest, Cancelable, Quiet;
    QuietTwice(n);
    LikeFacts(m, Twice(n));
    QuietScript(m, rest);
    LikeLike(RunScript(m, rest), m, Twice(n));
  }

  lemma {:induction false} BothDo(s: Script)
    requires s.Do?
    ensures ActDoesBoth(s.action) ==> ActCancels(s.action)
    ensures CancelsThenCloses(s.rest) ==> Closes(s.rest)
  {
    CancelsThenClosesDoesBoth(s.rest);
    if s.action.Make? {
      CancelsThenClosesDoesBoth(s.action.request.callback);
    }
  }

  // Callbacks on a connection without any request.

  predicate Idle(c: Conn) {
    c.current.None? && c.abandoned.None? && c.state != LoggedIn
  }

  function AfterIdle(c: Conn, closes: bool): Conn {
    if closes then GotoFinal(c) else c
  }

  lemma {:induction false} IdleFinal(c: Conn)
    requires Idle(c)
    ensures Idle(GotoFinal(c)) && GotoFinal(c).state == Final && GotoFinal(GotoFinal(c)) == GotoFinal(c)
  {
    hide RunScript, Weight;
  }

  lemma {:induction false} LikeIdle(a: Conn, b: Conn, closes: bool)
    requires Like(a, b) && Idle(b)
    ensures Idle(a) && Like(AfterIdle(a, closes), AfterIdle(b, closes))
  {
    hide RunScript, Weight;
  }

  lemma {:induction false} IdleAct(c: Conn, a: Action)
    requires Idle(c)
    ensures Like(Act(c, a), AfterIdle(c, ActCloses(a)))
    decreases a
  {
    Acts(c, a, Nothing);
    LikeItself(AfterIdle(c, ActCloses(a)));
    hide RunScript, Act, GotoFinal, Like, Idle;
    if a.Make? {
      var q := a.request;
      var n := TurnAway(c, q);
      LikeRefused(c, q);
      LikeIdle(n, c, ActCloses(a));
      IdleScript(n, q.callback);
      assert c.state != LoggedIn by {
        NotLoggedIn(c);
      }
      LikeLike(Act(c, a), AfterIdle(n, ActCloses(a)), AfterIdle(c, ActCloses(a)));
    } else {
      IdleCancel(c);
    }
  }

  lemma {:induction false} NotLoggedIn(c: Conn)
    requires Idle(c)
    ensures c.state != LoggedIn
  {
  }

  lemma {:induction false} IdleCancel(c: Conn)
    requires Idle(c)
    ensures CancelRequest(c) == CancelTheLast(c) == c
  {
  }

  /** Listeners can only close. */
  lemma {:induction false} IdleScript(c: Conn, s: Script)
    requires Idle(c)
    ensures Like(RunScript(c, s), AfterIdle(c, Closes(s)))
    decreases s
  {
    LikeItself(c);
    if s.Do? {
      var a := s.action;
      var m := Act(c, a);
      Acts(c, a, s.rest);
      IdleAct(c, a);
      assert Closes(s) == (ActCloses(a) || Closes(s.rest));
      IdleFinal(c);
      hide RunScript, Act, GotoFinal, Like, Idle, ActCloses;
      var n := AfterIdle(c, ActCloses(a));
      LikeIdle(m, n, Closes(s.rest));
      IdleScript(m, s.rest);
      LikeLike(RunScript(c, s), AfterIdle(m, Closes(s.rest)), AfterIdle(n, Closes(s.rest)));
    }
  }

  // Callbacks on any connection.

  /** What cancelling can change. */
  lemma {:induction false} CancelTouches(c: Conn)
    ensures
      var r := CancelRequest(c);
      && r == c.(state := r.state, current := r.current, requestTimer := r.requestTimer, cancelTimer := r.cancelTimer,
                 log := c.log.(wire := r.log.wire))
      && r.state in {c.state, SentAttention} && (c.current.None? ==> r == c)
  {
    if c.current.Some? && !c.current.value.canceled {
      var cur := c.current.value;
      var m := Told(c, cur).(current := Some(Canceled(c, cur)));
      assert CancelRequest(c) == if cur.phase == Responding then GotoAttention(m) else m;
      AttentionTouches(m);
      hide CancelRequest, Told, GotoAttention, Canceled, Weight;
    }
  }

  lemma {:induction false} AttentionTouches(c: Conn)
    ensures
      var r := GotoAttention(c);
      r == c.(state := SentAttention, current := r.current, requestTimer := r.requestTimer) && (c.current.None? ==> r.current.None?)
  {
  }

  lemma {:induction false} CancelAbandonedTouches(c: Conn)
    ensures
      var r := CancelAbandoned(c);
      && r == c.(state := r.state, current := r.current, abandoned := r.abandoned, requestTimer := r.requestTimer,
                 cancelTimer := r.cancelTimer, log := c.log.(wire := r.log.wire))
      && r.state in {c.state, SentAttention} && (c.current.None? ==> r.current.None?)
  {
    if c.abandoned.Some? && !c.abandoned.value.canceled {
      var cur := c.abandoned.value;
      var m := Told(c, cur).(abandoned := Some(Canceled(c, cur)));
      assert CancelAbandoned(c) == if cur.phase == Responding then GotoAttention(m) else m;
      AttentionTouches(m);
      hide CancelAbandoned, Told, GotoAttention, Canceled;
    }
  }

  lemma {:induction false} CancelLastTouches(c: Conn)
    ensures
      var r := CancelTheLast(c);
      r.log.completed == c.log.completed && r.state in {c.state, SentAttention} && (c.current.None? ==> r == CancelAbandoned(c))
  {
    CancelTouches(c);
    CancelAbandonedTouches(c);
    hide CancelRequest, CancelAbandoned;
  }

  lemma {:induction false} LoggedInMake(c: Conn, q: Request)
    requires c.state == LoggedIn
    ensures Act(c, Make(q)).log.completed == c.log.completed && Act(c, Make(q)).state in {LoggedIn, SentClientRequest}
  {
    hide RunScript, Take, Hand, TurnAway;
    assert Act(c, Make(q)) == MakeRequest(c, q);
  }

  /** Nothing completes on a connection that is gone. */
  predicate Gone(c: Conn) {
    c.closed && c.current.None? && c.state in {Final, SentAttention}
  }

  /** What a callback or a listener can still change then. */
  predicate GoesOn(c: Conn, r: Conn) {
    Gone(r) && r == c.(state := r.state, abandoned := r.abandoned, cancelTimer := r.cancelTimer, requestTimer := r.requestTimer, made := r.made)
  }

  lemma {:induction false} GoneScript(c: Conn, s: Script)
    requires Gone(c)
    ensures GoesOn(c, RunScript(c, s))
    decreases s
  {
    if s.Do? {
      hide Act;
      GoneAct(c, s.action);
      GoneScript(Act(c, s.action), s.rest);
    }
  }

  lemma {:induction false} GoneAct(c: Conn, a: Action)
    requires Gone(c)
    ensures GoesOn(c, Act(c, a))
    decreases a
  {
    Acts(c, a, Nothing);
    GoneStep(c);
    hide RunScript, Act, GotoFinal, CancelRequest, CancelTheLast;
    if a.Make? {
      GoneScript(TurnAway(c, a.request), a.request.callback);
    }
  }

  lemma {:induction false} GoneStep(c: Conn)
    requires Gone(c)
    ensures GoesOn(c, GotoFinal(c)) && GoesOn(c, CancelTheLast(c)) && CancelRequest(c) == c
  {
    CancelTouches(c);
    CancelLastTouches(c);
    CancelAbandonedTouches(c);
    GoneWire(c);
    hide RunScript, CancelAbandoned, CancelRequest, CancelTheLast;
  }

  /** Nothing is sent any more. */
  lemma {:induction false} GoneWire(c: Conn)
    requires Gone(c)
    ensures CancelAbandoned(c).log.wire == c.log.wire
  {
    hide GotoAttention, CutShort, Attended;
  }

  // What no callback or listener does.

  /**
   None of them begins or ends an attempt, counts a retry, or arms a timer that belongs to
   connecting; and each leaves the connection in its state, or starts a request, or ends it.
   */
  predicate Framed(c: Conn, r: Conn) {
    && r.cfg == c.cfg && r.retries == c.retries && r.attempt == c.attempt && r.token == c.token && (r.retryTimer ==> c.retryTimer)
    && (r.state == c.state || r.state in {Final, SentAttention} || (c.state == LoggedIn && r.state == SentClientRequest))
    && (r.connectTimer == c.connectTimer || (!r.connectTimer && r.state in {Final, SentAttention}))
  }

  lemma {:induction false} FramedBoth(a: Conn, b: Conn, c: Conn)
    requires Framed(a, b) && Framed(b, c)
    ensures Framed(a, c)
  {
  }

  lemma {:induction false} ScriptFramed(c: Conn, s: Script)
    ensures Framed(c, RunScript(c, s))
    decreases Weight(c) + Size(s), 1
  {
    hide Act, Weight, Size, Framed;
    if s.Do? {
      assert Weight(Act(c, s.action)) + Size(s.rest) < Weight(c) + Size(s) && Weight(c) + Cost(s.action) <= Weight(c) + Size(s) by {
        SizeOf(s);
      }
      ActFramed(c, s.action);
      ScriptFramed(Act(c, s.action), s.rest);
      FramedBoth(c, Act(c, s.action), RunScript(c, s));
    } else {
      FramedItself(c);
    }
  }

  lemma {:induction false} FramedItself(c: Conn)
    ensures Framed(c, c)
  {
  }

  lemma {:induction false} SizeOf(s: Script)
    requires s.Do?
    ensures Size(s) == Cost(s.action) + Size(s.rest)
  {
  }

  lemma {:induction false} ActFramed(c: Conn, a: Action)
    ensures Framed(c, Act(c, a))
    decreases Weight(c) + Cost(a), 0
  {
    Acts(c, a, Nothing);
    assert Cost(Close) == 1;
    hide RunScript, Act, CancelRequest, CancelTheLast, GotoFinal, Weight, Size, Cost, Framed;
    match a
    case Make(q) =>
      assert Weight(c) + Size(q.callback) < Weight(c) + Cost(a) by {
        CostOf(q);
      }
      if c.state == LoggedIn {
        MakeFramed(c, q);
      } else {
        assert Weight(TurnAway(c, q)) == Weight(c) by {
          RefuseWeight(c, q);
        }
        ScriptFramed(TurnAway(c, q), q.callback);
        TurnedAwayFramed(c, q, Act(c, a));
      }
    case Close => CloseFramed(c);
    case Cancel => CancelFramed(c);
    case CancelLast => CancelFramed(c);
  }

  lemma {:induction false} MakeFramed(c: Conn, q: Request)
    requires c.state == LoggedIn
    ensures Framed(c, Act(c, Make(q)))
  {
    assert Act(c, Make(q)) == Take(Hand(c, q), q) by {
      hide RunScript, Take;
    }
    TakeFramed(c, q);
    hide Act, Take;
  }

  lemma {:induction false} TakeFramed(c: Conn, q: Request)
    requires c.state == LoggedIn
    ensures Framed(c, Take(Hand(c, q), q))
  {
    hide Weight;
    if !q.canceled {
      AcceptFramed(Hand(c, q), q);
      hide Accept;
    }
  }

  lemma {:induction false} AcceptFramed(c: Conn, q: Request)
    requires c.state == LoggedIn
    ensures Framed(c, Accept(c, q))
  {
  }

  lemma {:induction false} TurnedAwayFramed(c: Conn, q: Request, r: Conn)
    requires Framed(TurnAway(c, q), r)
    ensures Framed(c, r)
  {
  }

  lemma {:induction false} CancelFramed(c: Conn)
    ensures Framed(c, CancelRequest(c)) && Framed(c, CancelTheLast(c))
  {
    CancelTouches(c);
    CancelAbandonedTouches(c);
    hide CancelRequest, CancelAbandoned;
  }

  lemma {:induction false} CostOf(q: Request)
    ensures Cost(Make(q)) > Size(q.callback)
  {
  }

  lemma {:induction false} RefuseWeight(c: Conn, q: Request)
    ensures Weight(TurnAway(c, q)) == Weight(c)
  {
  }

  lemma {:induction false} CloseFramed(c: Conn)
    ensures Framed(c, GotoFinal(c))
    decreases Weight(c), 2
  {
    hide RunScript, Called, Size;
    if c.state != Final && !c.closed && c.current.Some? {
      var m := Called(c);
      assert Weight(m) + Size(c.current.value.request.callback) < Weight(c);
      CalledFramed(c);
      ScriptFramed(m, c.current.value.request.callback);
      FramedBoth(c, m, RunScript(m, c.current.value.request.callback));
    }
  }

  lemma {:induction false} CalledFramed(c: Conn)
    requires c.current.Some?
    ensures Framed(c, Called(c))
  {
  }

  /** No callback or listener takes a connection back to the start. */
  lemma {:induction false} NeverInitialized(c: Conn, s: Script)
    requires c.state != Initialized
    ensures RunScript(c, s).state != Initialized
  {
    ScriptFramed(c, s);
    hide RunScript;
  }
}
