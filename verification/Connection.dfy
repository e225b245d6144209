/**
 The connection object: fields, entry and exit actions, a dispatch table, and the
 listeners of a request's 'cancel' event, which are swapped as the request moves
 on. Each event is a method, and does what ConnectionSpec says.
 */
module Connection {
  import opened Wrappers
  import opened ConnectionSpec
  import opened ConnectionSteps
  import opened ConnectionCallbacks
  import opened ConnectionInvariant

  /** The listeners of a request's 'cancel' event. */
  datatype Listener = CancelSending | CancelAfterRequestSent | CancelResponse

  /** Who listens while the request is in a phase, as long as it has not been cancelled. */
  function ListenersOf(p: Phase): seq<Listener> {
    match p
    case Sending => [CancelSending]
    case Sent => [CancelAfterRequestSent]
    case Responding => [CancelAfterRequestSent, CancelResponse]
    case _ => []
  }

  predicate Heard(r: Option<Current>, listeners: seq<Listener>) {
    r.Some? && !r.value.canceled ==> listeners == ListenersOf(r.value.phase)
  }

  datatype Cleanup = Normal | Redirect | Retry

  /** The request whose listeners are told, current or given up. */
  ghost function Target(c: Conn, gone: bool): Option<Current> {
    if gone then c.abandoned else c.current
  }

  ghost function With(c: Conn, gone: bool, cur: Current): Conn {
    if gone then c.(abandoned := Some(cur)) else c.(current := Some(cur))
  }

  /** What one listener does. */
  ghost function Notify(c: Conn, gone: bool, l: Listener): (r: Conn)
    requires Target(c, gone).Some?
    ensures Target(r, gone).Some?
  {
    var cur := Target(c, gone).value;
    match l
    case CancelSending => With(c, gone, CutShort(cur))
    case CancelAfterRequestSent => With(SendAttention(c, cur.request.id), gone, Attended(c, cur))
    case CancelResponse => GotoAttention(c)
  }

  ghost function NotifyAll(c: Conn, gone: bool, ls: seq<Listener>): Conn
    requires Target(c, gone).Some?
    decreases |ls|
  {
    if ls == [] then c else NotifyAll(Notify(c, gone, ls[0]), gone, ls[1..])
  }

  lemma {:induction false} NotifyOne(c: Conn, gone: bool, l: Listener)
    requires Target(c, gone).Some?
    ensures NotifyAll(c, gone, [l]) == Notify(c, gone, l)
  {
    hide Notify;
    assert [l][1..] == [];
    assert NotifyAll(Notify(c, gone, l), gone, []) == Notify(c, gone, l);
  }

  lemma {:induction false} NotifyTwo(c: Conn, gone: bool, l: Listener, k: Listener)
    requires Target(c, gone).Some?
    ensures NotifyAll(c, gone, [l, k]) == Notify(Notify(c, gone, l), gone, k)
  {
    hide Notify;
    assert [l, k][1..] == [k];
    NotifyOne(Notify(c, gone, l), gone, k);
  }

  ghost function CancelOne(c: Conn, gone: bool): Conn {
    if gone then CancelAbandoned(c) else CancelRequest(c)
  }

  lemma {:induction false} CancelOneIs(c: Conn, gone: bool)
    requires Target(c, gone).Some? && !Target(c, gone).value.canceled
    ensures
      var cur := Target(c, gone).value;
      var m := With(ConnectionSpec.Told(c, cur), gone, Canceled(c, cur));
      CancelOne(c, gone) == if cur.phase == Responding then GotoAttention(m) else m
  {
    hide ConnectionSpec.Told, Canceled, GotoAttention, Weight;
  }

  lemma {:induction false} SendWith(c: Conn, gone: bool, x: Current, id: nat, y: Current)
    ensures With(SendAttention(With(c, gone, x), id), gone, y) == With(SendAttention(c, id), gone, y)
    ensures Attended(With(c, gone, x), x) == Attended(c, x)
  {
  }

  /** A cancel behind the message. */
  lemma {:induction false} SentListeners(c: Conn, gone: bool)
    requires Target(c, gone).Some? && Target(c, gone).value.phase in {Sent, Responding}
    ensures
      var cur := Target(c, gone).value;
      var m := With(c, gone, cur.(canceled := true));
      Notify(m, gone, CancelAfterRequestSent) == With(ConnectionSpec.Told(c, cur), gone, Canceled(c, cur))
  {
    var cur := Target(c, gone).value;
    SendWith(c, gone, cur.(canceled := true), cur.request.id, Canceled(c, cur));
    hide SendAttention, Attended;
  }

  lemma {:induction false} SendingListeners(c: Conn, gone: bool)
    requires Target(c, gone).Some? && Target(c, gone).value.phase !in {Sent, Responding}
    ensures
      var cur := Target(c, gone).value;
      var m := With(c, gone, cur.(canceled := true));
      (if cur.phase == Sending then Notify(m, gone, CancelSending) else m) == With(ConnectionSpec.Told(c, cur), gone, Canceled(c, cur))
  {
    hide CutShort;
  }

  /** Telling the listeners of the phase is the same as asking for the phase. */
  lemma {:induction false} CancelByListeners(c: Conn, gone: bool)
    requires Target(c, gone).Some? && !Target(c, gone).value.canceled
    ensures
      var cur := Target(c, gone).value;
      var m := With(c, gone, cur.(canceled := true));
      Target(m, gone).Some? && NotifyAll(m, gone, ListenersOf(cur.phase)) == CancelOne(c, gone)
  {
    var cur := Target(c, gone).value;
    var m := With(c, gone, cur.(canceled := true));
    CancelOneIs(c, gone);
    assert Target(m, gone).Some?;
    assert Notify(Notify(m, gone, CancelAfterRequestSent), gone, CancelResponse) == GotoAttention(Notify(m, gone, CancelAfterRequestSent)) by {
      hide GotoAttention, SendAttention, Attended;
    }
    hide NotifyAll, CancelOne, Notify, With, Target, ConnectionSpec.Told, Canceled, GotoAttention;
    match cur.phase
    case Sending =>
      SendingListeners(c, gone);
      NotifyOne(m, gone, CancelSending);
    case Sent =>
      SentListeners(c, gone);
      NotifyOne(m, gone, CancelAfterRequestSent);
    case Responding =>
      SentListeners(c, gone);
      NotifyTwo(m, gone, CancelAfterRequestSent, CancelResponse);
    case _ =>
      SendingListeners(c, gone);
      NotifyNone(m, gone);
  }

  lemma {:induction false} NotifyNone(c: Conn, gone: bool)
    requires Target(c, gone).Some?
    ensures NotifyAll(c, gone, []) == c
  {
  }

  class Connection {
    const cfg: Config
    var state: State
    var closed: bool
    // The current request, with the state of its message and of the response to it.
    var request: Option<Current>
    var cancelListeners: seq<Listener>
    // The request that was given up, which may still be cancelled by its owner.
    var abandoned: Option<Current>
    var abandonedListeners: seq<Listener>
    // A connection attempt, and the wait for a security token, under way.
    var connecting: bool
    var fetchingToken: bool
    var connectTimer: bool
    var requestTimer: bool
    var cancelTimer: Timer
    var retryTimer: bool
    var curTransientRetryCount: nat
    var nextTicks: seq<Request>

    ghost var made: Made
    ghost var log: Log

    ghost function Abs(): Conn
      reads this
    {
      Conn(cfg, state, closed, request, abandoned, connecting, fetchingToken, connectTimer, requestTimer, cancelTimer, retryTimer,
           curTransientRetryCount, nextTicks, made, log)
    }

    ghost predicate Listening()
      reads this
    {
      Heard(request, cancelListeners) && Heard(abandoned, abandonedListeners)
    }

    ghost predicate Valid()
      reads this
    {
      Listening() && Inv(Abs())
    }

    constructor (cfg: Config)
      ensures Valid() && Abs() == Start(cfg)
    {
      this.cfg := cfg;
      state, closed, request, cancelListeners, abandoned, abandonedListeners := Initialized, false, None, [], None, [];
      connecting, fetchingToken, connectTimer, requestTimer, cancelTimer, retryTimer := false, false, false, false, Unset, false;
      curTransientRetryCount, nextTicks := 0, [];
      made, log := Made([], []), Log([], [], [], [], 0, 0, 0);
      new;
      StartInv(cfg);
    }

    // Timers, and the other fields that are set on their own.

    method CreateConnectTimer()
      requires Listening()
      modifies this`connectTimer, this`connecting, this`log
      ensures Listening() && Abs() == old(Abs()).(connectTimer := true, attempt := true,
        log := old(log).(overwritten := old(log).overwritten + if old(connectTimer) || old(connecting) then 1 else 0))
    {
      log := log.(overwritten := log.overwritten + if connectTimer || connecting then 1 else 0);
      connectTimer, connecting := true, true;
    }

    method ClearConnectTimer()
      requires Listening()
      modifies this`connectTimer
      ensures Listening() && Abs() == old(Abs()).(connectTimer := false)
    {
      connectTimer := false;
    }

    /** The attempt has come to an end. */
    method EndAttempt()
      requires Listening()
      modifies this`connecting
      ensures Listening() && Abs() == old(Abs()).(attempt := false)
    {
      connecting := false;
    }

    method CreateCancelTimer()
      modifies this`cancelTimer
      ensures Abs() == old(Abs()).(cancelTimer := if cfg.cancelTimeout then Pending else Unset)
    {
      cancelTimer := Unset;
      if cfg.cancelTimeout {
        cancelTimer := Pending;
      }
    }

    method SetCancelTimer(t: Timer)
      requires Listening()
      modifies this`cancelTimer
      ensures Listening() && Abs() == old(Abs()).(cancelTimer := t)
    {
      cancelTimer := t;
    }

    method SetRequestTimer(armed: bool)
      requires Listening()
      modifies this`requestTimer
      ensures Listening() && Abs() == old(Abs()).(requestTimer := armed)
    {
      requestTimer := armed;
    }

    method SetRetryTimer(armed: bool)
      requires Listening()
      modifies this`retryTimer
      ensures Listening() && Abs() == old(Abs()).(retryTimer := armed)
    {
      retryTimer := armed;
    }

    method SetClosed(b: bool)
      requires Listening()
      modifies this`closed
      ensures Listening() && Abs() == old(Abs()).(closed := b)
    {
      closed := b;
    }

    /** Updates the current request, and who listens for its being cancelled. */
    method SetRequest(cur: Current, listeners: seq<Listener>)
      requires Listening() && Heard(Some(cur), listeners)
      modifies this`request, this`cancelListeners
      ensures Listening() && Abs() == old(Abs()).(current := Some(cur))
    {
      request, cancelListeners := Some(cur), listeners;
    }

    method TakeRequest() returns (cur: Current)
      requires Listening() && request.Some?
      modifies this`request
      ensures cur == old(request).value && Listening() && Abs() == old(Abs()).(current := None)
    {
      cur := request.value;
      request := None;
    }

    /** The request is taken off, and keeps its listeners. */
    method GiveUpRequest()
      requires Listening()
      modifies this`request, this`abandoned, this`abandonedListeners
      ensures Listening() && Abs() == Abandon(old(Abs()))
    {
      if request.Some? {
        abandoned, abandonedListeners := request, cancelListeners;
      }
      request := None;
    }

    // Transitions.

    method TransitionTo(newState: State)
      requires Listening() && newState !in {Rerouting, TransientFailureRetry, SentAttention}
      modifies this
      ensures Listening()
      ensures Abs() ==
        if newState == Final then GotoFinal(old(Abs())) else if newState == Connecting then GotoConnecting(old(Abs()))
        else Goto(old(Abs()), newState)
      decreases Weight(Abs()), 6
    {
      hide RunScript, Size, Listening;
      if state == newState {
        return;
      }
      if newState == Final {
        TransitionToFinal();
      } else {
        ChangeState(newState);
        if newState == Connecting {
          CreateConnectTimer();
        }
      }
    }

    method TransitionToFinal()
      requires Listening() && state != Final
      modifies this
      ensures Listening() && Abs() == GotoFinal(old(Abs()))
      decreases Weight(Abs()), 5
    {
      hide RunScript, Size, Listening;
      ghost var c := Abs();
      ChangeState(Final);
      FinalWeight(c);
      CleanupConnection();
    }

    /** Runs the exit action and moves on, ahead of the entry action. */
    method ChangeState(newState: State)
      requires Listening()
      modifies this`state, this`requestTimer
      ensures Listening() && Abs() == Goto(old(Abs()), newState)
    {
      if state == SentClientRequest && newState != SentClientRequest {
        requestTimer := false;
      }
      state := newState;
    }

    method CountRetry()
      requires Listening()
      modifies this`curTransientRetryCount
      ensures Listening() && Abs() == old(Abs()).(retries := old(Abs()).retries + 1)
    {
      curTransientRetryCount := curTransientRetryCount + 1;
    }

    method ClearTimersForCleanup()
      requires Listening()
      modifies this`connectTimer, this`requestTimer, this`retryTimer
      ensures Listening() && Abs() == ClearTimers(old(Abs()))
    {
      connectTimer, requestTimer, retryTimer := false, false, false;
    }

    /** The end of a connection, unless it has ended before; the request is still there when it is called back. */
    method CleanupConnection()
      requires Listening()
      modifies this
      ensures Listening()
      ensures old(closed) ==> Abs() == old(Abs())
      ensures !old(closed) ==>
        var m := ClearTimers(old(Abs()));
        var cur := old(request);
        Abs() == Abandon(if cur.None? then m else RunScript(Complete(m, cur.value, Some(ECLOSE), How.Closed), cur.value.request.callback)).(closed := true)
      decreases Weight(Abs()) + (if request.Some? then 1 + Size(request.value.request.callback) else 0), 4
    {
      hide RunScript, Size, Listening, Complete, Abandon;
      if closed {
        return;
      }
      ghost var c := Abs();
      ClearTimersForCleanup();
      assert Weight(Abs()) == Weight(c) by {
        ClearedWeight(c);
      }
      if request.Some? {
        Callback(request.value, Some(ECLOSE), How.Closed);
      }
      GiveUpRequest();
      SetClosed(true);
    }

    /** The same for a connection that is going to connect again: no request is touched, and a rerouting is announced. */
    method CleanupForReconnect(kind: Cleanup, listener: Script)
      requires Listening() && Idle(Abs())
      modifies this
      ensures Listening()
      ensures Abs() == if old(closed) then old(Abs())
                       else RunScript(ClearTimers(old(Abs())), if kind == Redirect then listener else Nothing).(closed := true)
    {
      hide RunScript, Listening;
      if closed {
        return;
      }
      ClearTimersForCleanup();
      ghost var m := Abs();
      if kind == Redirect {
        Perform(listener);
      } else {
        PerformNothing(m);
      }
      SetClosed(true);
    }

    /** The user's closing of the connection. */
    method CloseConnection()
      requires Listening()
      modifies this
      ensures Listening() && Abs() == GotoFinal(old(Abs()))
      decreases Weight(Abs()), 7
    {
      TransitionTo(Final);
    }

    /** Leaves for a new connection to the same or another server. */
    method Reconnect(newState: State, listener: Script)
      requires Listening() && Idle(Abs()) && newState in {Rerouting, TransientFailureRetry} && state != newState
      modifies this
      ensures Listening()
      ensures
        var c := old(Abs());
        Abs() == GotoReconnecting(if newState == Rerouting then c else c.(retries := c.retries + 1), newState, listener)
    {
      hide RunScript, Listening;
      ChangeState(newState);
      if newState == Rerouting {
        CleanupForReconnect(Redirect, listener);
      } else {
        CountRetry();
        CleanupForReconnect(Retry, listener);
      }
    }

    // Callbacks.

    method Callback(cur: Current, outcome: Option<Code>, how: How)
      requires Listening()
      modifies this
      ensures Listening()
      ensures Abs() == RunScript(Complete(old(Abs()), cur, outcome, how), cur.request.callback)
      decreases Weight(Abs()) + Size(cur.request.callback), 4
    {
      hide RunScript, Size, Listening;
      ghost var c := Abs();
      Record(cur, outcome, how);
      assert Weight(Abs()) == Weight(c) by {
        CompletedWeight(c, cur, outcome, how);
      }
      Perform(cur.request.callback);
    }

    ghost method Record(cur: Current, outcome: Option<Code>, how: How)
      requires Listening()
      modifies this`log
      ensures Listening() && Abs() == Complete(old(Abs()), cur, outcome, how)
    {
      var d := Completion(cur, outcome, how);
      if |log.completed| < |log.accepted| {
        log := log.(completed := log.completed + [d]);
      } else {
        log := log.(repeated := log.repeated + [d]);
      }
    }

    /** User code, called synchronously: it may make requests and cancel them, and it may close the connection. */
    method Perform(s: Script)
      requires Listening()
      modifies this
      ensures Listening() && Abs() == RunScript(old(Abs()), s)
      decreases Weight(Abs()) + Size(s), 3
    {
      hide Size, Listening, Act, Weight;
      match s
      case Nothing =>
      case Do(a, rest) =>
        SizeOf(s);
        PerformAction(a);
        Perform(rest);
    }

    method PerformAction(a: Action)
      requires Listening()
      modifies this
      ensures Listening() && Abs() == Act(old(Abs()), a)
      decreases Weight(Abs()) + Cost(a), 2
    {
      hide Listening, RunScript, Weight, Size, GotoFinal, ConnectionSpec.MakeRequest, ConnectionSpec.CancelRequest, CancelTheLast;
      match a
      case Close => CloseConnection();
      case Make(q) => MakeRequest(q);
      case Cancel => CancelRequest();
      case CancelLast => CancelLastRequest();
    }

    method MakeRequest(q: Request)
      requires Listening()
      modifies this
      ensures Listening() && Abs() == ConnectionSpec.MakeRequest(old(Abs()), q)
      decreases Weight(Abs()) + 2 * Size(q.callback) + 3, 0
    {
      hide Size, RunScript, Listening;
      ghost var c := Abs();
      RecordHanded(q);
      if state != LoggedIn {
        RecordRefusal(q.id, EINVALIDSTATE);
        assert Weight(Abs()) == Weight(c) by {
          RefuseWeight(c, q);
        }
        Perform(q.callback);
      } else if q.canceled {
        Defer(nextTicks + [q]);
      } else {
        StartRequest(q);
        ChangeState(SentClientRequest);
        SetRequestTimer(q.timed);
      }
    }

    ghost method RecordHanded(q: Request)
      requires Listening()
      modifies this`made
      ensures Listening() && Abs() == Hand(old(Abs()), q)
    {
      made := made.(handed := made.handed + [Handed(q.id, q.canceled, state == LoggedIn)]);
    }

    ghost method RecordRefusal(id: nat, code: Code)
      requires Listening()
      modifies this`made
      ensures Listening() && Abs() == Refuse(old(Abs()), id, code)
    {
      made := made.(refused := made.refused + [(id, code)]);
    }

    method Defer(requests: seq<Request>)
      requires Listening()
      modifies this`nextTicks
      ensures Listening() && Abs() == old(Abs()).(deferred := requests)
    {
      nextTicks := requests;
    }

    method StartRequest(q: Request)
      requires Listening()
      modifies this`request, this`cancelListeners, this`log
      ensures Listening()
      ensures Abs() == old(Abs()).(
        current := Some(Current(q, Sending, false, false, false, None, Uncut, Streaming)),
        log := old(log).(accepted := old(log).accepted + [q.id], wire := old(log).wire + [[]]))
    {
      request := Some(Current(q, Sending, false, false, false, None, Uncut, Streaming));
      cancelListeners := [CancelSending];
      log := log.(accepted := log.accepted + [q.id], wire := log.wire + [[]]);
    }

    // Cancelling.

    /** The current request's `cancel`. */
    method CancelRequest()
      requires Listening()
      modifies this
      ensures Listening() && Abs() == ConnectionSpec.CancelRequest(old(Abs()))
    {
      if request.Some? && !request.value.canceled {
        EmitCancel(false);
      }
    }

    method CancelLastRequest()
      requires Listening()
      modifies this
      ensures Listening() && Abs() == CancelTheLast(old(Abs()))
    {
      hide ConnectionSpec.CancelRequest, CancelAbandoned;
      if request.Some? {
        CancelRequest();
      } else {
        CancelGivenUp();
      }
    }

    /** The `cancel` of a request whose connection has gone away: nothing has taken its listeners off. */
    method CancelGivenUp()
      requires Listening()
      modifies this
      ensures Listening() && Abs() == CancelAbandoned(old(Abs()))
    {
      if abandoned.Some? && !abandoned.value.canceled {
        EmitCancel(true);
      }
    }

    /** It emits at most once, and every listener is told once. */
    method EmitCancel(gone: bool)
      requires Listening() && Target(Abs(), gone).Some? && !Target(Abs(), gone).value.canceled
      modifies this
      ensures Listening() && Abs() == CancelOne(old(Abs()), gone)
    {
      ghost var c := Abs();
      CancelByListeners(c, gone);
      var listeners := if gone then abandonedListeners else cancelListeners;
      var cur := if gone then abandoned.value else request.value;
      SetTarget(gone, cur.(canceled := true));
      hide Listening, CancelOne, Notify, With, Target;
      var i := 0;
      while i < |listeners|
        invariant 0 <= i <= |listeners| && Listening() && Target(Abs(), gone).Some? && Target(Abs(), gone).value.canceled
        invariant NotifyAll(Abs(), gone, listeners[i..]) == CancelOne(c, gone)
        decreases |listeners| - i
      {
        assert listeners[i..][1..] == listeners[i + 1..];
        Emit(gone, listeners[i]);
        i := i + 1;
      }
      NotifyNone(Abs(), gone);
    }

    /** Its listeners are no longer of interest once it is cancelled. */
    method SetTarget(gone: bool, cur: Current)
      requires Listening() && cur.canceled
      modifies this`request, this`abandoned
      ensures Listening() && Abs() == With(old(Abs()), gone, cur)
    {
      if gone {
        abandoned := Some(cur);
      } else {
        request := Some(cur);
      }
    }

    method Emit(gone: bool, l: Listener)
      requires Listening() && Target(Abs(), gone).Some? && Target(Abs(), gone).value.canceled
      modifies this
      ensures Listening() && Abs() == Notify(old(Abs()), gone, l)
      ensures Target(Abs(), gone).Some? && Target(Abs(), gone).value.canceled
    {
      hide Listening, SendAttention, GotoAttention;
      var cur := if gone then abandoned.value else request.value;
      match l
      case CancelSending => SetTarget(gone, CutShort(cur));
      case CancelAfterRequestSent =>
        ghost var c := Abs();
        TransmitAttention(cur.request.id);
        SetTarget(gone, cur.(attention := state != Final && !closed));
      case CancelResponse => EnterAttention();
    }

    /** Sends an attention, and waits for its acknowledgement for so long. */
    method TransmitAttention(id: nat)
      requires Listening()
      modifies this`log, this`cancelTimer
      ensures Listening() && Abs() == SendAttention(old(Abs()), id)
    {
      Transmit(Attention(id));
      CreateCancelTimer();
    }

    method EnterAttention()
      requires Listening()
      modifies this
      ensures Listening() && Abs() == GotoAttention(old(Abs()))
      ensures request.Some? == old(request).Some? && (request.Some? ==> request.value.canceled == old(request).value.canceled)
      ensures abandoned == old(abandoned)
    {
      ChangeState(SentAttention);
      if request.Some? {
        request, cancelListeners := Some(request.value.(phase := Acknowledging)), [];
      }
    }

    ghost method Transmit(m: OnWire)
      requires Listening()
      modifies this`log
      ensures Listening() && Abs() == Send(old(Abs()), m)
    {
      if log.wire != [] && state != Final && !closed {
        log := log.(wire := log.wire[|log.wire| - 1 := log.wire[|log.wire| - 1] + [m]]);
      }
    }

    // Dispatching.

    method DispatchEvent(name: Name, code: Code)
      requires Listening()
      modifies this
      ensures Listening() && Abs() == Dispatch(old(Abs()), name, code)
    {
      hide RunScript, GotoFinal, Listening, LoseRequest;
      if !Handles(state, name) {
        CountUnhandled();
        CloseConnection();
      } else {
        match name
        case OnReconnect => TransitionTo(Connecting);
        case OnRetry => SetRetryTimer(true);
        case OnConnectTimeout => TransitionTo(Final);
        case OnSocketError =>
          if state == SentClientRequest || state == SentAttention {
            OnRequestLost(code);
          } else {
            TransitionTo(Final);
          }
      }
    }

    ghost method CountUnhandled()
      requires Listening()
      modifies this`log
      ensures Listening() && Abs() == old(Abs()).(log := old(log).(unhandled := old(log).unhandled + 1))
    {
      log := log.(unhandled := log.unhandled + 1);
    }

    ghost method CountCrash()
      requires Listening()
      modifies this`log
      ensures Listening() && Abs() == old(Abs()).(log := old(log).(crashed := old(log).crashed + 1))
    {
      log := log.(crashed := log.crashed + 1);
    }

    /** The socket goes away: the request is taken off, the connection closes, and only then is the request called back, if there is one. */
    method OnRequestLost(code: Code)
      requires Listening()
      modifies this
      ensures Listening() && Abs() == LoseRequest(old(Abs()), code)
    {
      hide RunScript, GotoFinal, Listening, Complete, Abandon;
      var sqlRequest := request;
      GiveUpRequest();
      TransitionTo(Final);
      if sqlRequest.None? {
        CountCrash();
      } else {
        Callback(sqlRequest.value, Some(code), Lost);
      }
    }

    // The user's calls.

    method Connect()
      requires Valid()
      modifies this
      ensures Valid() && Abs() == Next(old(Abs()), UserConnect)
    {
      NextInv(Abs(), UserConnect);
      hide Inv, RunScript, GotoFinal, Listening, GotoConnecting;
      if state == Initialized {
        TransitionTo(Connecting);
      }
    }

    method UserClose()
      requires Valid()
      modifies this
      ensures Valid() && Abs() == Next(old(Abs()), ConnectionSpec.UserClose)
    {
      NextInv(Abs(), ConnectionSpec.UserClose);
      hide Inv, RunScript, GotoFinal, Listening;
      CloseConnection();
    }

    method Cancel() returns (done: bool)
      requires Valid()
      modifies this
      ensures Valid() && Abs() == Next(old(Abs()), UserCancel)
      ensures done == (old(request).Some? && !old(request).value.canceled)
    {
      NextInv(Abs(), UserCancel);
      hide Inv, Listening, ConnectionSpec.CancelRequest;
      done := request.Some? && !request.value.canceled;
      CancelRequest();
    }

    /** The `cancel` of the request that was accepted last, by whoever holds it. */
    method CancelOfLastRequest()
      requires Valid()
      modifies this
      ensures Valid() && Abs() == Next(old(Abs()), UserCancelLast)
    {
      hide Inv, Listening, CancelTheLast, Next, Enabled;
      CancelLastIs(Abs());
      NextInv(Abs(), UserCancelLast);
      CancelLastRequest();
    }

    method ExecRequest(q: Request)
      requires Valid()
      modifies this
      ensures Valid() && Abs() == Next(old(Abs()), UserMakeRequest(q))
    {
      hide Inv, Listening, ConnectionSpec.MakeRequest, Next, Enabled;
      MakeRequestIs(Abs(), q);
      NextInv(Abs(), UserMakeRequest(q));
      MakeRequest(q);
    }

    method RunNextTick()
      requires Valid() && Enabled(Abs(), NextTick)
      modifies this
      ensures Valid() && Abs() == Next(old(Abs()), NextTick)
    {
      NextInv(Abs(), NextTick);
      hide Inv, RunScript, GotoFinal, Listening;
      var q := nextTicks[0];
      Defer(nextTicks[1..]);
      RecordRefusal(q.id, ECANCEL);
      Perform(q.callback);
    }

    // Connecting and logging in.

    /** The connection attempt has succeeded; nothing here asks whether the connection still wants it. */
    method OnConnected()
      requires Valid() && Enabled(Abs(), ConnectDone)
      modifies this
      ensures Valid() && Abs() == Next(old(Abs()), ConnectDone)
    {
      NextInv(Abs(), ConnectDone);
      hide Inv, RunScript, GotoFinal, Listening;
      SetClosed(false);
      EndAttempt();
      TransitionTo(SentPrelogin);
    }

    method OnConnectFailed()
      requires Valid() && Enabled(Abs(), ConnectFailed)
      modifies this
      ensures Valid() && Abs() == Next(old(Abs()), ConnectFailed)
    {
      NextInv(Abs(), ConnectFailed);
      hide Inv, RunScript, GotoFinal, Listening;
      EndAttempt();
      ClearConnectTimer();
    }

    method OnLookupFailed(listener: Script)
      requires Valid() && Enabled(Abs(), LookupFailed(listener))
      modifies this
      ensures Valid() && Abs() == Next(old(Abs()), LookupFailed(listener))
    {
      NextInv(Abs(), LookupFailed(listener));
      hide Inv, RunScript, GotoFinal, Listening;
      EndAttempt();
      ClearConnectTimer();
      Perform(listener);
    }

    method SendLogin7()
      requires Listening()
      modifies this
      ensures Listening() && Abs() == Goto(old(Abs()), LoginState(cfg))
    {
      hide GotoFinal, GotoConnecting, Listening;
      match cfg.auth
      case FedAuth => TransitionTo(SentLogin7WithFedAuth);
      case Ntlm => TransitionTo(SentLogin7WithNtlm);
      case Standard => TransitionTo(SentLogin7WithStandardLogin);
    }

    method OnPrelogin(reply: PreloginReply, listener: Script)
      requires Valid() && Enabled(Abs(), PreloginResponse(reply, listener))
      modifies this
      ensures Valid() && Abs() == Next(old(Abs()), PreloginResponse(reply, listener))
    {
      hide Inv, RunScript, GotoFinal, Listening, GotoConnecting, Next, Enabled, OnConnecting;
      NextInv(Abs(), PreloginResponse(reply, listener));
      PreloginIs(Abs(), reply, listener);
      ConnectingIs(Abs(), PreloginResponse(reply, listener));
      match reply
      case Unencryptable =>
        Perform(listener);
        CloseConnection();
      case NeedsTls => TransitionTo(SentTlsSslNegotiation);
      case Plain => SendLogin7();
    }

    method OnTlsDone()
      requires Valid() && Enabled(Abs(), TlsDone)
      modifies this
      ensures Valid() && Abs() == Next(old(Abs()), TlsDone)
    {
      hide Inv, Listening, Next, Enabled, OnConnecting;
      NextInv(Abs(), TlsDone);
      TlsDoneIs(Abs());
      ConnectingIs(Abs(), TlsDone);
      SendLogin7();
    }

    method OnLoginResponse(reply: LoginReply, listener: Script)
      requires Valid() && Enabled(Abs(), LoginResponse(reply, listener))
      modifies this
      ensures Valid() && Abs() == Next(old(Abs()), LoginResponse(reply, listener))
    {
      hide Inv, Next, Enabled, Listening, RunScript, GotoFinal, GotoConnecting, GotoReconnecting, Idle;
      NextInv(Abs(), LoginResponse(reply, listener));
      LoginResponseIs(Abs(), reply, listener);
      LoginIdle(Abs());
      match reply
      case AckRerouted => Reconnect(Rerouting, listener);
      case Ack => TransitionTo(LoggedInSendingInitialSql);
      case Challenge =>
      case FedAuthInfo => AwaitToken(true);
      case LoginError(transient) =>
        if transient && curTransientRetryCount != cfg.maxRetries {
          Reconnect(TransientFailureRetry, listener);
        } else {
          GiveUp(listener);
        }
      case NoAck => GiveUp(listener);
    }

    method AwaitToken(waiting: bool)
      requires Listening()
      modifies this`fetchingToken
      ensures Listening() && Abs() == old(Abs()).(token := waiting)
    {
      fetchingToken := waiting;
    }

    /** The security token is here; nothing asks whether the connection still wants it. */
    method OnTokenArrives()
      requires Valid() && Enabled(Abs(), TokenArrives)
      modifies this
      ensures Valid() && Abs() == Next(old(Abs()), TokenArrives)
    {
      hide Inv, GotoFinal, GotoConnecting, Listening, Next, Enabled, OnConnecting;
      NextInv(Abs(), TokenArrives);
      ConnectingIs(Abs(), TokenArrives);
      TokenArrivesIs(Abs());
      AwaitToken(false);
      TransitionTo(SentLogin7WithStandardLogin);
    }

    method OnTokenFails(listener: Script)
      requires Valid() && Enabled(Abs(), TokenFails(listener))
      modifies this
      ensures Valid() && Abs() == Next(old(Abs()), TokenFails(listener))
    {
      hide Inv, GotoFinal, RunScript, Listening, Next, Enabled, OnConnecting;
      NextInv(Abs(), TokenFails(listener));
      ConnectingIs(Abs(), TokenFails(listener));
      TokenFailsIs(Abs(), listener);
      AwaitToken(false);
      GiveUp(listener);
    }

    method GiveUp(listener: Script)
      requires Listening()
      modifies this
      ensures Listening() && Abs() == GotoFinal(RunScript(old(Abs()), listener))
    {
      hide RunScript, GotoFinal, Listening;
      Perform(listener);
      TransitionTo(Final);
    }

    method OnInitialSqlDone(listener: Script)
      requires Valid() && Enabled(Abs(), InitialSqlDone(listener))
      modifies this
      ensures Valid() && Abs() == Next(old(Abs()), InitialSqlDone(listener))
    {
      hide Inv, RunScript, GotoFinal, Listening, GotoConnecting, Next, Enabled, OnConnecting;
      NextInv(Abs(), InitialSqlDone(listener));
      ConnectingIs(Abs(), InitialSqlDone(listener));
      InitialSqlIs(Abs(), listener);
      TransitionTo(LoggedIn);
      ClearConnectTimer();
      Perform(listener);
    }

    // The request's message and the responses.

    /** The payload has been written, which ends the message; the message finishes later. */
    method OnPayloadEnd()
      requires Valid() && Enabled(Abs(), PayloadEnds)
      modifies this
      ensures Valid() && Abs() == Next(old(Abs()), PayloadEnds)
    {
      NextInv(Abs(), PayloadEnds);
      hide Inv, RunScript, GotoFinal, Listening;
      SetRequest(request.value.(payload := Over), cancelListeners);
    }

    /** The payload's 'error' event, from the payload itself or from having been destroyed while streaming. */
    method OnPayloadError(code: Code, ghost e: Event)
      requires Valid() && Enabled(Abs(), e)
      requires (e == PayloadBreaks && code == PayloadFailure) || (e == PayloadErrorDelivered && code == ECANCEL)
      modifies this
      ensures Valid() && Abs() == Next(old(Abs()), e)
    {
      hide Inv, Next, Enabled;
      NextInv(Abs(), e);
      PayloadErrorIs(Abs(), e, code);
      var cur := request.value;
      if cur.error.None? {
        cur := cur.(error := Some(code));
      }
      if cur.cut == Uncut {
        cur := cur.(cut := ByFailure);
      }
      SetRequest(cur.(payload := Over), cancelListeners);
    }

    static function RemoveListener(ls: seq<Listener>, l: Listener): seq<Listener> {
      if ls == [] then [] else if ls[0] == l then ls[1..] else [ls[0]] + RemoveListener(ls[1..], l)
    }

    /** The whole message is on its way: from here on a cancel must send an attention. */
    method OnMessageFinish()
      requires Valid() && Enabled(Abs(), MessageFinished)
      modifies this
      ensures Valid() && Abs() == Next(old(Abs()), MessageFinished)
    {
      hide Inv, Send, Next, Enabled;
      NextInv(Abs(), MessageFinished);
      MessageFinishedIs(Abs());
      var cur := request.value;
      var listeners := RemoveListener(cancelListeners, CancelSending) + [CancelAfterRequestSent];
      Transmit(Message(cur.request.id, cur.cut));
      SetRequest(cur.(phase := Sent), listeners);
    }

    /** The message of a request given up can still finish. */
    method OnAbandonedFinish()
      requires Valid() && Enabled(Abs(), AbandonedFinished)
      modifies this
      ensures Valid() && Abs() == Next(old(Abs()), AbandonedFinished)
    {
      hide Inv, Next, Enabled;
      NextInv(Abs(), AbandonedFinished);
      AbandonedFinishedIs(Abs());
      var listeners := RemoveListener(abandonedListeners, CancelSending) + [CancelAfterRequestSent];
      SetAbandoned(abandoned.value.(phase := Sent), listeners);
    }

    method SetAbandoned(cur: Current, listeners: seq<Listener>)
      requires Listening() && Heard(Some(cur), listeners)
      modifies this`abandoned, this`abandonedListeners
      ensures Listening() && Abs() == old(Abs()).(abandoned := Some(cur))
    {
      abandoned, abandonedListeners := Some(cur), listeners;
    }

    method OnResponseStart()
      requires Valid() && Enabled(Abs(), ResponseStarted)
      modifies this
      ensures Valid() && Abs() == Next(old(Abs()), ResponseStarted)
    {
      hide Inv, Next, Enabled, GotoAttention;
      NextInv(Abs(), ResponseStarted);
      ResponseStartedIs(Abs());
      SetRequestTimer(false);
      if request.value.canceled && cancelTimer != Unset {
        EnterAttention();
      } else {
        SetRequest(request.value.(phase := Responding), cancelListeners + [CancelResponse]);
      }
    }

    method OnErrorToken()
      requires Valid() && Enabled(Abs(), ErrorToken)
      modifies this
      ensures Valid() && Abs() == Next(old(Abs()), ErrorToken)
    {
      hide Inv, Next, Enabled;
      NextInv(Abs(), ErrorToken);
      ErrorTokenIs(Abs());
      if !request.value.canceled {
        SetRequest(request.value.(error := Some(EREQUEST)), cancelListeners);
      }
    }

    /** Nothing looks at the request in between, so that either order of the two will do. */
    method FinishRequest() returns (cur: Current)
      requires Listening() && request.Some?
      modifies this
      ensures cur == old(request).value && Listening() && Abs() == Goto(old(Abs()), LoggedIn).(current := None)
    {
      hide RunScript, GotoFinal, GotoConnecting, Listening;
      cur := TakeRequest();
      TransitionTo(LoggedIn);
    }

    /** The listeners go, so that cancelling a request that has completed does nothing. */
    method StopListening()
      requires Listening() && request.None?
      modifies this`cancelListeners
      ensures Listening() && Abs() == old(Abs())
    {
      cancelListeners := RemoveListener(RemoveListener(cancelListeners, CancelAfterRequestSent), CancelResponse);
    }

    method OnEndOfMessage()
      requires Valid() && Enabled(Abs(), ResponseEnded)
      modifies this
      ensures Valid() && Abs() == Next(old(Abs()), ResponseEnded)
    {
      hide Inv, Next, Enabled, RunScript, Complete, Listening;
      NextInv(Abs(), ResponseEnded);
      ResponseIs(Abs());
      var sqlRequest := FinishRequest();
      StopListening();
      Callback(sqlRequest, sqlRequest.error, EndOfMessage);
    }

    method OnAttentionResponse(attentionReceived: bool)
      requires Valid() && Enabled(Abs(), AttentionResponse(attentionReceived))
      modifies this
      ensures Valid() && Abs() == Next(old(Abs()), AttentionResponse(attentionReceived))
    {
      hide Inv, Next, Enabled, CallBack, AcknowledgedWith;
      NextInv(Abs(), AttentionResponse(attentionReceived));
      AttentionFacts(Abs(), attentionReceived);
      if attentionReceived {
        AttentionIs(Abs());
        OnAcknowledged();
      } else {
        UnacknowledgedIs(Abs());
        SetRequest(request.value.(phase := Deaf), []);
      }
    }

    method OnAcknowledged()
      requires Listening() && request.Some?
      modifies this
      ensures Listening()
      ensures
        var c, cur := old(Abs()), old(request).value;
        Abs() == CallBack(Goto(c, LoggedIn).(current := None, cancelTimer := Unset), cur, Some(AcknowledgedWith(cur)), Acknowledged)
    {
      hide RunScript, Complete, Listening;
      var sqlRequest := FinishRequest();
      SetCancelTimer(Unset);
      if sqlRequest.error == Some(ETIMEOUT) {
        Callback(sqlRequest, sqlRequest.error, Acknowledged);
      } else {
        Callback(sqlRequest, Some(ECANCEL), Acknowledged);
      }
    }

    // Timers and the socket.

    method OnConnectTimeout(listener: Script)
      requires Valid() && Enabled(Abs(), ConnectTimerFires(listener))
      modifies this
      ensures Valid() && Abs() == Next(old(Abs()), ConnectTimerFires(listener))
    {
      hide Inv, Next, Enabled, RunScript, Dispatch, Listening;
      NextInv(Abs(), ConnectTimerFires(listener));
      ConnectTimerIs(Abs(), listener);
      EndAttempt();
      Perform(listener);
      ClearConnectTimer();
      DispatchEvent(ConnectionSpec.OnConnectTimeout, ETIMEOUT);
    }

    method OnRequestTimeout()
      requires Valid() && Enabled(Abs(), RequestTimerFires)
      modifies this
      ensures Valid() && Abs() == Next(old(Abs()), RequestTimerFires)
    {
      TimerArmed(Abs());
      hide Inv, Next, Enabled, ConnectionSpec.CancelRequest;
      NextInv(Abs(), RequestTimerFires);
      TimerFacts(Abs());
      CancelKeepsRequest(Abs().(requestTimer := false));
      RequestTimerIs(Abs());
      SetRequestTimer(false);
      CancelRequest();
      SetRequest(request.value.(error := Some(ETIMEOUT), timedOut := true), cancelListeners);
    }

    method OnCancelTimeout()
      requires Valid() && Enabled(Abs(), CancelTimerFires)
      modifies this
      ensures Valid() && Abs() == Next(old(Abs()), CancelTimerFires)
    {
      hide Inv, Next, Enabled, Dispatch, Listening;
      NextInv(Abs(), CancelTimerFires);
      CancelTimerIs(Abs());
      SetCancelTimer(Fired);
      DispatchEvent(OnSocketError, CancelTimedOut);
    }

    method OnRetryTimeout(listener: Script)
      requires Valid() && Enabled(Abs(), RetryTimerFires(listener))
      modifies this
      ensures Valid() && Abs() == Next(old(Abs()), RetryTimerFires(listener))
    {
      hide Inv, Next, Enabled, GotoConnecting, RunScript, Listening;
      NextInv(Abs(), RetryTimerFires(listener));
      RetryTimerIs(Abs(), listener);
      SetRetryTimer(false);
      Perform(listener);
      TransitionTo(Connecting);
    }

    method OnSocketFailure(listener: Script)
      requires Valid() && Enabled(Abs(), SocketError(listener))
      modifies this
      ensures Valid() && Abs() == Next(old(Abs()), SocketError(listener))
    {
      hide Inv, RunScript, Dispatch, Listening, Next, Enabled;
      NextInv(Abs(), SocketError(listener));
      SocketErrorIs(Abs(), listener);
      Perform(listener);
      DispatchEvent(OnSocketError, SocketFailure);
    }

    method OnSocketEnd(listener: Script)
      requires Valid() && Enabled(Abs(), SocketEnd(listener))
      modifies this
      ensures Valid() && Abs() == Next(old(Abs()), SocketEnd(listener))
    {
      hide Inv, RunScript, Dispatch, Listening, Next, Enabled;
      NextInv(Abs(), SocketEnd(listener));
      SocketEndIs(Abs(), listener);
      if state != Final {
        Perform(listener);
        DispatchEvent(OnSocketError, SocketFailure);
      }
    }

    method OnSocketClose()
      requires Valid() && Enabled(Abs(), SocketClose)
      modifies this
      ensures Valid() && Abs() == Next(old(Abs()), SocketClose)
    {
      hide Inv, Dispatch, Listening, GotoFinal, Next, Enabled;
      NextInv(Abs(), SocketClose);
      SocketCloseDispatches(Abs());
      if state == Rerouting {
        DispatchEvent(OnReconnect, SocketFailure);
      } else if state == TransientFailureRetry {
        DispatchEvent(OnRetry, SocketFailure);
      } else {
        TransitionTo(Final);
      }
    }
  }

  /** Closing takes one call of the callback off what it can still do. */
  lemma {:induction false} FinalWeight(c: Conn)
    requires c.state != Final
    ensures
      var m := Goto(c, Final);
      Weight(c) == Weight(m) + if c.current.Some? then 1 + Size(c.current.value.request.callback) else 0
  {
    hide Size;
  }

  lemma {:induction false} ClearedWeight(c: Conn)
    ensures Weight(ClearTimers(c)) == Weight(c)
  {
    hide Size;
  }

  lemma {:induction false} CompletedWeight(c: Conn, cur: Current, outcome: Option<Code>, how: How)
    ensures Weight(Complete(c, cur, outcome, how)) == Weight(c)
  {
    var r := Complete(c, cur, outcome, how);
    assert r.state == c.state && r.current == c.current;
    hide Size, Complete;
  }

  lemma {:induction false} PerformNothing(c: Conn)
    ensures RunScript(c, Nothing) == c
  {
  }

  lemma {:induction false} LoginIdle(c: Conn)
    requires Inv(c) && LoggingIn(c.state)
    ensures Idle(c)
  {
    hide Inv;
    NoRequestFacts(c);
  }
}
