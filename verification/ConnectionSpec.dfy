/**
 The connection as a state machine: what each event does, stated flatly. The class
 that implements it, with its dispatch table, entry and exit actions and listeners,
 is in Connection.dfy; what every run keeps is in ConnectionInvariant.dfy.
 */
module ConnectionSpec {
  import opened Wrappers

  datatype State =
    | Initialized | Connecting | SentPrelogin | Rerouting | TransientFailureRetry | SentTlsSslNegotiation
    | SentLogin7WithStandardLogin | SentLogin7WithNtlm | SentLogin7WithFedAuth
    | LoggedInSendingInitialSql | LoggedIn | SentClientRequest | SentAttention | Final

  predicate LoggingIn(s: State) {
    s.SentLogin7WithStandardLogin? || s.SentLogin7WithNtlm? || s.SentLogin7WithFedAuth?
  }

  predicate InProgress(s: State) {
    s == SentClientRequest || s == SentAttention
  }

  datatype Auth = Standard | Ntlm | FedAuth

  datatype Config = Config(cancelTimeout: bool, auth: Auth, maxRetries: nat)

  // Requests, with what their callbacks do when they are called.

  datatype Request = Request(id: nat, timed: bool, canceled: bool, callback: Script)

  datatype Script = Nothing | Do(action: Action, rest: Script)

  /** `Cancel` is the connection's own, `CancelLast` that of the request which was accepted last. */
  datatype Action = Make(request: Request) | Close | Cancel | CancelLast

  function Size(s: Script): nat {
    match s
    case Nothing => 0
    case Do(a, rest) => Cost(a) + Size(rest)
  }

  function Cost(a: Action): nat {
    if a.Make? then 3 + 2 * Size(a.request.callback) else 1
  }

  datatype Code = ECANCEL | ETIMEOUT | ECLOSE | EINVALIDSTATE | EREQUEST | PayloadFailure | SocketFailure | CancelTimedOut

  /** Where a request is. */
  datatype Phase = Sending | Sent | Responding | Acknowledging | Deaf

  /** Why its message was cut short with the ignore flag, if it was, and whether its payload was still streaming then. */
  datatype Cut = Uncut | ByCancel(streaming: bool) | ByFailure

  /** The stream that produces its payload; one destroyed while streaming reports its error some time after that. */
  datatype Payload = Streaming | Destroyed | Over

  datatype Current = Current(
    request: Request, phase: Phase, canceled: bool, attention: bool, timedOut: bool, error: Option<Code>, cut: Cut, payload: Payload)

  datatype Timer = Unset | Pending | Fired

  // Records of what happened.

  datatype How = EndOfMessage | Acknowledged | Closed | Lost

  /** A callback called: the request as it was then, and with what. */
  datatype Completion = Completion(current: Current, outcome: Option<Code>, how: How)

  datatype OnWire = Message(id: nat, cut: Cut) | Attention(id: nat)

  /**
   `completed` holds the first call of each callback, `repeated` any further ones.
   `wire` holds, for each accepted request in turn, what was sent for it.
   `unhandled`, `crashed` and `overwritten` count the events that no handler took,
   the uses of a request that is not there, and the connect timers and attempts
   that a new one replaced.
   */
  datatype Log = Log(
    accepted: seq<nat>, completed: seq<Completion>, repeated: seq<Completion>, wire: seq<seq<OnWire>>,
    unhandled: nat, crashed: nat, overwritten: nat)

  /** A request as it was handed over: whether it had been cancelled by then, and whether the connection was ready for it. */
  datatype Handed = Handed(id: nat, canceled: bool, ready: bool)

  /** The requests that were handed over, and those called back without having been accepted. */
  datatype Made = Made(handed: seq<Handed>, refused: seq<(nat, Code)>)

  /**
   `attempt` says whether a connection attempt is under way, and `token` whether a
   security token is waited for. `abandoned` is a request whose callback has been
   called because the connection went away; it keeps the listeners it had.
   */
  datatype Conn = Conn(
    cfg: Config, state: State, closed: bool, current: Option<Current>, abandoned: Option<Current>, attempt: bool, token: bool,
    connectTimer: bool, requestTimer: bool, cancelTimer: Timer, retryTimer: bool, retries: nat, deferred: seq<Request>,
    made: Made, log: Log)

  function Start(cfg: Config): Conn {
    Conn(cfg, Initialized, false, None, None, false, false, false, false, Unset, false, 0, [], Made([], []), Log([], [], [], [], 0, 0, 0))
  }

  // Moving between states.

  /** A state without an entry action of its own. */
  function Goto(c: Conn, s: State): Conn {
    c.(state := s, requestTimer := c.requestTimer && (s == c.state || c.state != SentClientRequest))
  }

  function GotoConnecting(c: Conn): Conn {
    if c.state == Connecting then c
    else
      Goto(c, Connecting).(
        connectTimer := true, attempt := true,
        log := c.log.(overwritten := c.log.overwritten + if c.connectTimer || c.attempt then 1 else 0))
  }

  function ClearTimers(c: Conn): Conn {
    c.(connectTimer := false, requestTimer := false, retryTimer := false)
  }

  /** The callback of a request that was never accepted. */
  function Refuse(c: Conn, id: nat, code: Code): (r: Conn)
    ensures r == c.(made := r.made)
  {
    c.(made := c.made.(refused := c.made.refused + [(id, code)]))
  }

  function Hand(c: Conn, q: Request): (r: Conn)
    ensures r == c.(made := r.made)
  {
    c.(made := c.made.(handed := c.made.handed + [Handed(q.id, q.canceled, c.state == LoggedIn)]))
  }

  /** A request made in another state than LOGGED_IN. */
  function TurnAway(c: Conn, q: Request): (r: Conn)
    ensures r == c.(made := r.made)
  {
    Refuse(Hand(c, q), q.id, EINVALIDSTATE)
  }

  function Complete(c: Conn, cur: Current, outcome: Option<Code>, how: How): Conn {
    var d := Completion(cur, outcome, how);
    if |c.log.completed| < |c.log.accepted| then c.(log := c.log.(completed := c.log.completed + [d]))
    else c.(log := c.log.(repeated := c.log.repeated + [d]))
  }

  function Accept(c: Conn, r: Request): Conn {
    Goto(c.(
      current := Some(Current(r, Sending, false, false, false, None, Uncut, Streaming)),
      log := c.log.(accepted := c.log.accepted + [r.id], wire := c.log.wire + [[]])), SentClientRequest).(requestTimer := r.timed)
  }

  /** A request that was cancelled before it was made is called back on the next tick. */
  function Take(c: Conn, q: Request): (r: Conn)
    ensures r.cfg == c.cfg && r.log.completed == c.log.completed && r.state in {c.state, SentClientRequest}
    ensures Weight(r) <= Weight(c) + 2 + 2 * Size(q.callback)
  {
    if q.canceled then c.(deferred := c.deferred + [q]) else Accept(c, q)
  }

  function Abandon(c: Conn): Conn {
    c.(current := None, abandoned := if c.current.Some? then c.current else c.abandoned)
  }

  // Cancelling.

  /** Without a socket nothing gets onto the wire. */
  function Send(c: Conn, m: OnWire): Conn {
    if c.log.wire == [] || c.state == Final || c.closed then c
    else
      var last := |c.log.wire| - 1;
      c.(log := c.log.(wire := c.log.wire[last := c.log.wire[last] + [m]]))
  }

  function SendAttention(c: Conn, id: nat): (r: Conn)
    ensures r == c.(cancelTimer := r.cancelTimer, log := c.log.(wire := r.log.wire))
  {
    Send(c, Attention(id)).(cancelTimer := if c.cfg.cancelTimeout then Pending else Unset)
  }

  /** A request cancelled while its message is being written: the message ends, with the ignore flag. */
  function CutShort(cur: Current): Current {
    cur.(cut := if cur.cut == Uncut then ByCancel(cur.payload == Streaming) else cur.cut,
         payload := if cur.payload == Streaming then Destroyed else cur.payload)
  }

  /** Marks what the attention is for, if it got onto the wire. */
  function Attended(c: Conn, cur: Current): Current {
    cur.(attention := c.state != Final && !c.closed)
  }

  function GotoAttention(c: Conn): (r: Conn)
    ensures r == c.(state := SentAttention, current := r.current, requestTimer := r.requestTimer)
  {
    Goto(c, SentAttention).(
      current := if c.current.Some? then Some(c.current.value.(phase := Acknowledging)) else None)
  }

  /** How much the callback of the current request can still do: it may be called by closing, and once more by closing after a cancel. */
  function Weight(c: Conn): nat {
    if c.current.None? then 0
    else
      var once := 1 + Size(c.current.value.request.callback);
      (if c.state == Final then 0 else once) + (if c.current.value.canceled then 0 else once)
  }

  /** The record of a request once the listeners of its 'cancel' event have been told: what they do depends on how far its message is. */
  function Canceled(c: Conn, cur: Current): Current {
    var x := cur.(canceled := true);
    if x.phase == Sending then CutShort(x)
    else if x.phase == Sent || x.phase == Responding then Attended(c, x)
    else x
  }

  /** What they send. */
  function Told(c: Conn, cur: Current): (r: Conn)
    ensures r == c.(cancelTimer := r.cancelTimer, log := c.log.(wire := r.log.wire))
  {
    if cur.phase == Sent || cur.phase == Responding then SendAttention(c, cur.request.id) else c
  }

  function CancelRequest(c: Conn): (r: Conn)
    ensures Weight(r) <= Weight(c)
    ensures r.cfg == c.cfg
  {
    if c.current.None? || c.current.value.canceled then c
    else
      var cur := c.current.value;
      var m := Told(c, cur).(current := Some(Canceled(c, cur)));
      if cur.phase == Responding then GotoAttention(m) else m
  }

  /** The same for a request whose connection has gone away. */
  function CancelAbandoned(c: Conn): (r: Conn)
    ensures c.current.None? ==> r.current.None?
    ensures r.cfg == c.cfg
  {
    if c.abandoned.None? || c.abandoned.value.canceled then c
    else
      var cur := c.abandoned.value;
      var m := Told(c, cur).(abandoned := Some(Canceled(c, cur)));
      if cur.phase == Responding then GotoAttention(m) else m
  }

  function CancelTheLast(c: Conn): (r: Conn)
    ensures Weight(r) <= Weight(c)
    ensures r.cfg == c.cfg
  {
    if c.current.Some? then CancelRequest(c) else CancelAbandoned(c)
  }

  // Callbacks may make requests, cancel them and close the connection, and those may call callbacks again.

  /** The final state, with its timers cleared, and nothing else done yet. */
  function Ending(c: Conn): (r: Conn)
    ensures r.state == Final && r.current == c.current && r.cfg == c.cfg && r.log == c.log
  {
    ClearTimers(Goto(c, Final))
  }

  /** As it is when the callback of the current request is called. */
  function Called(c: Conn): (r: Conn)
    requires c.current.Some?
    ensures r.state == Final && r.current == c.current && r.cfg == c.cfg
  {
    Complete(Ending(c), c.current.value, Some(ECLOSE), Closed)
  }

  function Ended(c: Conn): (r: Conn)
    ensures r.current.None? && r.cfg == c.cfg
  {
    Abandon(c).(closed := true)
  }

  function RunScript(c: Conn, s: Script): (r: Conn)
    ensures Weight(r) <= Weight(c) + Size(s)
    ensures r.cfg == c.cfg
    decreases Weight(c) + Size(s), 1
  {
    match s
    case Nothing => c
    case Do(a, rest) => RunScript(Act(c, a), rest)
  }

  function Act(c: Conn, a: Action): (r: Conn)
    ensures Weight(r) < Weight(c) + Cost(a)
    ensures r.cfg == c.cfg
    decreases Weight(c) + Cost(a), 0
  {
    match a
    case Close => GotoFinal(c)
    case Make(q) => MakeRequest(c, q)
    case Cancel => CancelRequest(c)
    case CancelLast => CancelTheLast(c)
  }

  function MakeRequest(c: Conn, q: Request): (r: Conn)
    ensures Weight(r) <= Weight(c) + 2 + 2 * Size(q.callback)
    ensures r.cfg == c.cfg
    decreases Weight(c) + Size(q.callback) + 1, 0
  {
    if c.state != LoggedIn then RunScript(TurnAway(c, q), q.callback) else Take(Hand(c, q), q)
  }

  /** Closing completes the request in progress, whose callback still finds it there. */
  function GotoFinal(c: Conn): (r: Conn)
    ensures Weight(r) <= Weight(c)
    ensures r.cfg == c.cfg
    decreases Weight(c), 0
  {
    if c.state == Final then c
    else if c.closed then Goto(c, Final)
    else if c.current.None? then Ended(Ending(c))
    else Ended(RunScript(Called(c), c.current.value.request.callback))
  }

  /** Calls back, with the request already taken off. */
  function CallBack(c: Conn, cur: Current, outcome: Option<Code>, how: How): (r: Conn)
    ensures r.cfg == c.cfg
  {
    RunScript(Complete(c, cur, outcome, how), cur.request.callback)
  }

  /** Rerouting and retrying close the socket, without touching any request; rerouting is announced before that is done. */
  function GotoReconnecting(c: Conn, s: State, listener: Script): (r: Conn)
    ensures r.cfg == c.cfg
  {
    var m := Goto(c, s);
    if c.closed then m
    else RunScript(ClearTimers(m), if s == Rerouting then listener else Nothing).(closed := true)
  }

  // Dispatching.

  datatype Name = OnSocketError | OnConnectTimeout | OnReconnect | OnRetry

  /** The table of handlers. */
  predicate Handles(s: State, n: Name) {
    match n
    case OnSocketError => s != Initialized
    case OnConnectTimeout => s !in {Initialized, LoggedIn, SentClientRequest, SentAttention}
    case OnReconnect => s == Rerouting
    case OnRetry => s == TransientFailureRetry
  }

  /** The socket goes away while a request is said to be in progress. */
  function LoseRequest(c: Conn, code: Code): (r: Conn)
    ensures r.cfg == c.cfg
  {
    var f := GotoFinal(Abandon(c));
    if c.current.None? then f.(log := f.log.(crashed := f.log.crashed + 1))
    else CallBack(f, c.current.value, Some(code), Lost)
  }

  function Dispatch(c: Conn, n: Name, code: Code): (r: Conn)
    ensures r.cfg == c.cfg
  {
    if !Handles(c.state, n) then GotoFinal(c.(log := c.log.(unhandled := c.log.unhandled + 1)))
    else
      match n
      case OnReconnect => GotoConnecting(c)
      case OnRetry => c.(retryTimer := true)
      case OnConnectTimeout => GotoFinal(c)
      case OnSocketError => if InProgress(c.state) then LoseRequest(c, code) else GotoFinal(c)
  }

  // Events. The script of an event is what the listeners of the connection's own
  // events do, which run before anything else happens.

  datatype PreloginReply = Unencryptable | NeedsTls | Plain

  datatype LoginReply = Ack | AckRerouted | Challenge | FedAuthInfo | LoginError(transient: bool) | NoAck

  datatype Event =
    | UserConnect | UserClose | UserCancel | UserCancelLast | UserMakeRequest(request: Request) | NextTick
    | ConnectDone | ConnectFailed | LookupFailed(listener: Script)
    | PreloginResponse(prelogin: PreloginReply, listener: Script) | TlsDone
    | LoginResponse(login: LoginReply, listener: Script) | TokenArrives | TokenFails(listener: Script) | InitialSqlDone(listener: Script)
    | PayloadEnds | PayloadBreaks | PayloadErrorDelivered | MessageFinished | AbandonedFinished
    | ResponseStarted | ErrorToken | ResponseEnded | AttentionResponse(acknowledged: bool)
    | ConnectTimerFires(listener: Script) | RequestTimerFires | CancelTimerFires | RetryTimerFires(listener: Script)
    | SocketError(listener: Script) | SocketEnd(listener: Script) | SocketClose

  /** The current request, if it is in this state and phase. */
  predicate At(c: Conn, s: State, p: Phase) {
    c.state == s && c.current.Some? && c.current.value.phase == p
  }

  /** What the environment can deliver: timers that are armed, and continuations of what is going on. */
  predicate Enabled(c: Conn, e: Event) {
    match e
    case UserConnect => true
    case UserClose => true
    case UserCancel => true
    case UserCancelLast => true
    case UserMakeRequest(_) => true
    case NextTick => c.deferred != []
    case ConnectDone => c.attempt
    case ConnectFailed => c.attempt
    case LookupFailed(_) => c.attempt
    case PreloginResponse(_, _) => c.state == SentPrelogin
    case TlsDone => c.state == SentTlsSslNegotiation
    case LoginResponse(reply, _) =>
      && LoggingIn(c.state) && !c.closed && !c.token
      && (reply.Challenge? ==> c.state == SentLogin7WithNtlm)
      && (reply.FedAuthInfo? ==> c.state == SentLogin7WithFedAuth)
    case TokenArrives => c.token
    case TokenFails(_) => c.token
    case InitialSqlDone(_) => c.state == LoggedInSendingInitialSql
    case PayloadEnds => c.current.Some? && c.current.value.payload == Streaming
    case PayloadBreaks => c.current.Some? && c.current.value.payload == Streaming
    case PayloadErrorDelivered => c.current.Some? && c.current.value.payload == Destroyed
    case MessageFinished => At(c, SentClientRequest, Sending) && c.current.value.payload != Streaming
    case AbandonedFinished => c.abandoned.Some? && c.abandoned.value.phase == Sending
    case ResponseStarted => At(c, SentClientRequest, Sent)
    case ErrorToken => At(c, SentClientRequest, Responding)
    case ResponseEnded => At(c, SentClientRequest, Responding)
    case AttentionResponse(_) => At(c, SentAttention, Acknowledging)
    case ConnectTimerFires(_) => c.connectTimer
    case RequestTimerFires => c.requestTimer
    case CancelTimerFires => c.cancelTimer == Pending
    case RetryTimerFires(_) => c.retryTimer
    case SocketError(_) => c.state != Initialized
    case SocketEnd(_) => c.state != Initialized
    case SocketClose => c.state != Initialized
  }

  function LoginState(cfg: Config): State {
    match cfg.auth
    case Standard => SentLogin7WithStandardLogin
    case Ntlm => SentLogin7WithNtlm
    case FedAuth => SentLogin7WithFedAuth
  }

  function OnLogin(c: Conn, reply: LoginReply, listener: Script): (r: Conn)
    ensures r.cfg == c.cfg
  {
    match reply
    case Ack => Goto(c, LoggedInSendingInitialSql)
    case AckRerouted => GotoReconnecting(c, Rerouting, listener)
    case Challenge => c
    case FedAuthInfo => c.(token := true)
    case LoginError(transient) =>
      if transient && c.retries != c.cfg.maxRetries then
        GotoReconnecting(c.(retries := c.retries + 1), TransientFailureRetry, listener)
      else GotoFinal(RunScript(c, listener))
    case NoAck => GotoFinal(RunScript(c, listener))
  }

  /** The outcome of a cancelled request whose attention was acknowledged. */
  function AcknowledgedWith(cur: Current): Code {
    if cur.error == Some(ETIMEOUT) then ETIMEOUT else ECANCEL
  }

  /** The error of the payload, unless there was one before, ends the message with the ignore flag, unless it has ended. */
  function Failed(cur: Current, code: Code): Current {
    cur.(error := if cur.error.None? then Some(code) else cur.error,
         cut := if cur.cut == Uncut then ByFailure else cur.cut, payload := Over)
  }

  function OnSending(c: Conn, e: Event): (r: Conn)
    requires c.current.Some?
    ensures r.cfg == c.cfg
  {
    var cur := c.current.value;
    match e
    case PayloadEnds => c.(current := Some(cur.(payload := Over)))
    case PayloadBreaks => c.(current := Some(Failed(cur, PayloadFailure)))
    case PayloadErrorDelivered => c.(current := Some(Failed(cur, ECANCEL)))
    case MessageFinished => Send(c, Message(cur.request.id, cur.cut)).(current := Some(cur.(phase := Sent)))
    case _ => c
  }

  function OnResponse(c: Conn, e: Event): (r: Conn)
    requires c.current.Some?
    ensures r.cfg == c.cfg
  {
    var cur := c.current.value;
    match e
    case ResponseStarted =>
      var m := c.(requestTimer := false);
      if cur.canceled && c.cancelTimer != Unset then GotoAttention(m)
      else m.(current := Some(cur.(phase := Responding)))
    case ErrorToken =>
      if cur.canceled then c else c.(current := Some(cur.(error := Some(EREQUEST))))
    case ResponseEnded =>
      CallBack(Goto(c, LoggedIn).(current := None), cur, cur.error, EndOfMessage)
    case AttentionResponse(acknowledged) =>
      if !acknowledged then c.(current := Some(cur.(phase := Deaf)))
      else
        CallBack(Goto(c, LoggedIn).(current := None, cancelTimer := Unset), cur, Some(AcknowledgedWith(cur)), Acknowledged)
    case _ => c
  }

  function OnConnecting(c: Conn, e: Event): (r: Conn)
    ensures r.cfg == c.cfg
  {
    match e
    case ConnectDone => Goto(c.(closed := false, attempt := false), SentPrelogin)
    case ConnectFailed => c.(attempt := false, connectTimer := false)
    case LookupFailed(listener) => RunScript(c.(attempt := false, connectTimer := false), listener)
    case PreloginResponse(reply, listener) =>
      (match reply
       case Unencryptable => GotoFinal(RunScript(c, listener))
       case NeedsTls => Goto(c, SentTlsSslNegotiation)
       case Plain => Goto(c, LoginState(c.cfg)))
    case TlsDone => Goto(c, LoginState(c.cfg))
    case LoginResponse(reply, listener) => OnLogin(c, reply, listener)
    case TokenArrives => Goto(c.(token := false), SentLogin7WithStandardLogin)
    case TokenFails(listener) => GotoFinal(RunScript(c.(token := false), listener))
    case InitialSqlDone(listener) => RunScript(Goto(c, LoggedIn).(connectTimer := false), listener)
    case _ => c
  }

  function Next(c: Conn, e: Event): (r: Conn)
    requires Enabled(c, e)
    ensures r.cfg == c.cfg
  {
    match e
    case UserConnect => if c.state == Initialized then GotoConnecting(c) else c
    case UserClose => GotoFinal(c)
    case UserCancel => CancelRequest(c)
    case UserCancelLast => CancelTheLast(c)
    case UserMakeRequest(q) => MakeRequest(c, q)
    case NextTick =>
      var q := c.deferred[0];
      RunScript(Refuse(c.(deferred := c.deferred[1..]), q.id, ECANCEL), q.callback)
    case AbandonedFinished => c.(abandoned := Some(c.abandoned.value.(phase := Sent)))
    case ConnectTimerFires(listener) =>
      Dispatch(RunScript(c.(attempt := false), listener).(connectTimer := false), OnConnectTimeout, ETIMEOUT)
    case RequestTimerFires =>
      var m := CancelRequest(c.(requestTimer := false));
      if m.current.None? then m.(log := m.log.(crashed := m.log.crashed + 1))
      else m.(current := Some(m.current.value.(error := Some(ETIMEOUT), timedOut := true)))
    case CancelTimerFires => Dispatch(c.(cancelTimer := Fired), OnSocketError, CancelTimedOut)
    case RetryTimerFires(listener) => GotoConnecting(RunScript(c.(retryTimer := false), listener))
    case SocketError(listener) => Dispatch(RunScript(c, listener), OnSocketError, SocketFailure)
    case SocketEnd(listener) =>
      if c.state == Final then c else Dispatch(RunScript(c, listener), OnSocketError, SocketFailure)
    case SocketClose =>
      if c.state == Rerouting then Dispatch(c, OnReconnect, SocketFailure)
      else if c.state == TransientFailureRetry then Dispatch(c, OnRetry, SocketFailure)
      else GotoFinal(c)
    case ResponseStarted => OnResponse(c, e)
    case ErrorToken => OnResponse(c, e)
    case ResponseEnded => OnResponse(c, e)
    case AttentionResponse(_) => OnResponse(c, e)
    case PayloadEnds => OnSending(c, e)
    case PayloadBreaks => OnSending(c, e)
    case PayloadErrorDelivered => OnSending(c, e)
    case MessageFinished => OnSending(c, e)
    case _ => OnConnecting(c, e)
  }
}
