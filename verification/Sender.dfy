/** Asking several addresses at once over UDP: the first answer counts. */
module Sender {
  import opened Wrappers
  import opened Connector

  /** The last error is the one that is reported. */
  datatype Answer = Message(socket: nat) | GivenUp(last: nat) | CalledOff

  datatype SocketEvent = SocketError(socket: nat) | SocketMessage(socket: nat) | AbortEvent

  /** The errors are those that were counted, by socket. All sockets listen until all are closed; an error does not change that. */
  datatype Request = Request(n: nat, listening: bool, errors: seq<nat>, closes: seq<nat>, abortListening: bool, answer: Option<Answer>)

  function NewRequest(n: nat): Request {
    Request(n, true, [], seq(n, _ => 0), true, None)
  }

  function ClosedOnce(closes: seq<nat>): (r: seq<nat>)
    ensures |r| == |closes|
  {
    seq(|closes|, i requires 0 <= i < |closes| => closes[i] + 1)
  }

  function Finish(r: Request, a: Answer): Request
    requires |r.closes| == r.n
  {
    r.(listening := false, abortListening := false, answer := if r.answer.None? then Some(a) else r.answer,
       closes := ClosedOnce(r.closes))
  }

  function Handle(r: Request, e: SocketEvent): (m: Request)
    requires |r.closes| == r.n
    ensures m.n == r.n == |m.closes|
  {
    match e
    case SocketError(i) =>
      if !r.listening || i >= r.n then r
      else
        var m := r.(errors := r.errors + [i]);
        if |m.errors| == r.n then Finish(m, GivenUp(i)) else m
    case SocketMessage(i) => if !r.listening || i >= r.n then r else Finish(r, Message(i))
    case AbortEvent => if !r.abortListening then r else Finish(r, CalledOff)
  }

  function HandleAll(r: Request, es: seq<SocketEvent>): Request
    requires |r.closes| == r.n
    decreases |es|
  {
    if es == [] then r else HandleAll(Handle(r, es[0]), es[1..])
  }

  /** The answer, by itself: the first message or abort, unless as many errors as there are addresses come before. */
  function FirstAnswer(n: nat, errors: seq<nat>, es: seq<SocketEvent>): Option<Answer>
    decreases |es|
  {
    if es == [] then None
    else
      match es[0]
      case AbortEvent => Some(CalledOff)
      case SocketMessage(i) => if i < n then Some(Message(i)) else FirstAnswer(n, errors, es[1..])
      case SocketError(i) =>
        if i >= n then FirstAnswer(n, errors, es[1..])
        else if |errors| + 1 == n then Some(GivenUp(i))
        else FirstAnswer(n, errors + [i], es[1..])
  }

  predicate Consistent(r: Request) {
    && |r.closes| == r.n && (r.answer.None? <==> r.listening) && r.listening == r.abortListening
    && (forall i | 0 <= i < r.n :: r.closes[i] == if r.listening then 0 else 1)
    && (forall i | 0 <= i < |r.errors| :: r.errors[i] < r.n)
    && (r.answer.Some? && r.answer.value.GivenUp? ==> |r.errors| == r.n)
  }

  lemma {:induction false} HandleAllConsistent(r: Request, es: seq<SocketEvent>)
    requires Consistent(r)
    ensures Consistent(HandleAll(r, es)) && HandleAll(r, es).n == r.n
    ensures r.answer.Some? ==> HandleAll(r, es) == r
    ensures r.answer.None? ==> HandleAll(r, es).answer == FirstAnswer(r.n, r.errors, es)
    decreases |es|
  {
    if es != [] {
      HandleAllConsistent(Handle(r, es[0]), es[1..]);
    }
  }

  /** Over every order of events: one answer, with every socket closed exactly once by then, and none before. */
  lemma AnswerOutcome(n: nat, es: seq<SocketEvent>)
    ensures
      var r := HandleAll(NewRequest(n), es);
      && r.answer == FirstAnswer(n, [], es)
      && |r.closes| == n
      && forall i | 0 <= i < n :: r.closes[i] == if r.answer.Some? then 1 else 0
  {
    HandleAllConsistent(NewRequest(n), es);
  }

  /** The sockets that fail, in order. */
  function ErrorSockets(n: nat, es: seq<SocketEvent>): seq<nat>
    decreases |es|
  {
    if es == [] then []
    else if es[0].SocketError? && es[0].socket < n then [es[0].socket] + ErrorSockets(n, es[1..])
    else ErrorSockets(n, es[1..])
  }

  /** The errors that are counted are the first ones. */
  lemma {:induction false} ErrorsCounted(r: Request, es: seq<SocketEvent>)
    requires Consistent(r) && r.answer.None? && |r.errors| < r.n
    ensures
      var m := HandleAll(r, es);
      m.answer.Some? && m.answer.value.GivenUp? ==>
        |r.errors + ErrorSockets(r.n, es)| >= r.n && m.errors == (r.errors + ErrorSockets(r.n, es))[..r.n]
    decreases |es|
  {
    if es != [] {
      var m := Handle(r, es[0]);
      HandleAllConsistent(r, [es[0]]);
      HandleAllConsistent(m, es[1..]);
      assert HandleAll(r, [es[0]]) == m by {
        assert [es[0]][1..] == [];
        assert HandleAll(m, []) == m;
      }
      if es[0].SocketError? && es[0].socket < r.n {
        var i := es[0].socket;
        assert r.errors + ErrorSockets(r.n, es) == (r.errors + [i]) + ErrorSockets(r.n, es[1..]);
        if m.answer.None? {
          ErrorsCounted(m, es[1..]);
        } else {
          assert (r.errors + ErrorSockets(r.n, es))[..r.n] == r.errors + [i];
        }
      } else if m.answer.None? {
        ErrorsCounted(m, es[1..]);
      }
    }
  }

  /** Errors are counted, not told apart: a request given up has heard from every address if and only if no socket is among the first ones to fail twice. */
  lemma {:induction false} GivenUpExactly(n: nat, es: seq<SocketEvent>)
    ensures
      var answer, failed := HandleAll(NewRequest(n), es).answer, ErrorSockets(n, es);
      answer.Some? && answer.value.GivenUp? ==> |failed| >= n && (Elements(failed[..n]) == All(n) <==> NoRepeats(failed[..n]))
  {
    HandleAllConsistent(NewRequest(n), es);
    if n > 0 {
      ErrorsCounted(NewRequest(n), es);
    }
    var r := HandleAll(NewRequest(n), es);
    if r.answer.Some? && r.answer.value.GivenUp? {
      var errors := r.errors;
      assert [] + ErrorSockets(n, es) == ErrorSockets(n, es);
      AllSize(n);
      if NoRepeats(errors) {
        Distinct(errors);
        Counted(Elements(errors), All(n));
      } else {
        Repeated(errors);
      }
    }
  }

  lemma {:induction false} Repeated(s: seq<nat>)
    requires !NoRepeats(s)
    ensures |Elements(s)| < |s|
  {
    var i, j :| 0 <= i < j < |s| && s[i] == s[j];
    var rest := s[..j] + s[j + 1..];
    assert s == s[..j] + [s[j]] + s[j + 1..] && s[i] == rest[i];
    assert Elements(s) == Elements(rest);
    ElementsAtMost(rest);
  }

  lemma {:induction false} ElementsAtMost(s: seq<nat>)
    ensures |Elements(s)| <= |s|
  {
    if s == [] {
      assert Elements(s) == {};
    } else {
      ElementsAtMost(s[1..]);
      assert Elements(s) == {s[0]} + Elements(s[1..]);
    }
  }

  /** One socket that keeps failing is enough to give up on all of them. */
  lemma {:induction false} OneSocketGivesUp(n: nat, k: nat)
    requires k < n
    ensures FirstAnswer(n, seq(k, _ => 0), seq(n - k, _ => SocketError(0))) == Some(GivenUp(0))
    decreases n - k
  {
    var es := seq(n - k, _ => SocketError(0));
    assert seq(k, _ => 0) + [0] == seq(k + 1, _ => 0);
    if k + 1 < n {
      assert es[1..] == seq(n - (k + 1), _ => SocketError(0));
      OneSocketGivesUp(n, k + 1);
    }
  }

  class ParallelSend {
    const n: nat
    var listening: bool
    var errorCount: nat
    var closes: array<nat>
    var abortListening: bool
    var answer: Option<Answer>
    ghost var errors: seq<nat>

    ghost predicate Valid()
      reads this, closes
    {
      closes.Length == n && errorCount == |errors| && Consistent(Abs())
    }

    ghost function Abs(): Request
      reads this, closes
    {
      Request(n, listening, errors, closes[..], abortListening, answer)
    }

    constructor (n: nat)
      ensures Valid() && Abs() == NewRequest(n) && fresh(closes)
    {
      this.n := n;
      closes := new nat[n](_ => 0);
      listening, errorCount, abortListening, answer, errors := true, 0, true, None, [];
    }

    method ClearSockets()
      requires closes.Length == n
      modifies this`listening, closes
      ensures Abs() == old(Abs()).(listening := false, closes := ClosedOnce(old(closes[..])))
    {
      for j := 0 to closes.Length
        invariant forall i | 0 <= i < n :: closes[i] == old(closes[i]) + if i < j then 1 else 0
      {
        closes[j] := closes[j] + 1;
      }
      assert closes[..] == ClosedOnce(old(closes[..]));
      listening := false;
    }

    method Settle(a: Answer)
      modifies this`answer
      ensures answer == if old(answer).None? then Some(a) else old(answer)
    {
      if answer.None? {
        answer := Some(a);
      }
    }

    method OnError(i: nat)
      requires Valid() && listening && i < n
      modifies this, closes
      ensures Valid() && closes == old(closes) && Abs() == Handle(old(Abs()), SocketError(i))
    {
      errorCount, errors := errorCount + 1, errors + [i];
      if errorCount == n {
        abortListening := false;
        ClearSockets();
        Settle(GivenUp(i));
      }
    }

    method OnMessage(i: nat)
      requires Valid() && listening && i < n
      modifies this, closes
      ensures Valid() && closes == old(closes) && Abs() == Handle(old(Abs()), SocketMessage(i))
    {
      abortListening := false;
      ClearSockets();
      Settle(Message(i));
    }

    method OnAbort()
      requires Valid() && abortListening
      modifies this, closes
      ensures Valid() && closes == old(closes) && Abs() == Handle(old(Abs()), AbortEvent)
    {
      abortListening := false;
      ClearSockets();
      Settle(CalledOff);
    }
  }
}
