/** Connecting to several addresses, all at once or one after the other. */
module Connector {
  import opened Wrappers

  /** How connecting ends. The errors are those of the addresses that failed, in the order in which they did. */
  datatype Outcome = Connected(socket: nat) | Failed(errors: seq<nat>) | Aborted

  datatype Event = Connect(socket: nat) | Error(socket: nat) | Abort

  predicate Below(i: nat, n: nat) {
    i < n
  }

  function All(n: nat): set<nat> {
    set i: nat | i < n && Below(i, n)
  }

  lemma {:induction false} AllSize(n: nat)
    ensures |All(n)| == n
  {
    if n > 0 {
      AllSize(n - 1);
      assert All(n) == All(n - 1) + {n - 1};
    } else {
      assert All(n) == {};
    }
  }

  // In parallel.

  /** Only the first call that settles the promise has an effect. */
  datatype Race = Race(
    n: nat, listening: set<nat>, destroyed: set<nat>, errors: seq<nat>, abortListening: bool, outcome: Option<Outcome>)

  function Start(n: nat): Race {
    Race(n, All(n), {}, [], true, None)
  }

  function Settle(r: Race, o: Outcome): Race {
    if r.outcome.None? then r.(outcome := Some(o)) else r
  }

  /** An event reaches only those who listen. */
  function Next(r: Race, e: Event): Race {
    match e
    case Error(i) =>
      if i !in r.listening then r
      else
        var m := r.(errors := r.errors + [i], listening := r.listening - {i}, destroyed := r.destroyed + {i});
        if |m.errors| == r.n then Settle(m.(abortListening := false), Failed(m.errors)) else m
    case Connect(i) =>
      if i !in r.listening then r
      else
        Settle(r.(abortListening := false, listening := r.listening - (All(r.n) - {i}), destroyed := r.destroyed + (All(r.n) - {i})), Connected(i))
    case Abort =>
      if !r.abortListening then r
      else Settle(r.(abortListening := false, listening := r.listening - All(r.n), destroyed := r.destroyed + All(r.n)), Aborted)
  }

  function Run(r: Race, es: seq<Event>): Race
    decreases |es|
  {
    if es == [] then r else Run(Next(r, es[0]), es[1..])
  }

  predicate NoRepeats(s: seq<nat>) {
    forall i, j | 0 <= i < j < |s| :: s[i] != s[j]
  }

  function Elements(s: seq<nat>): set<nat> {
    set x | x in s
  }

  /** One error for each of the addresses. */
  predicate OneEach(n: nat, errors: seq<nat>) {
    |errors| == n && NoRepeats(errors) && Elements(errors) == All(n)
  }

  /**
   A socket has listeners until it is destroyed, and each failure is recorded once.
   A winner stands alone; but it still has the listeners of the race, so that a later
   error of its own destroys it.
   */
  predicate Inv(r: Race) {
    && r.listening !! r.destroyed && r.listening + r.destroyed == All(r.n)
    && NoRepeats(r.errors) && Elements(r.errors) <= r.destroyed
    && (r.outcome.None? <==> r.abortListening)
    && match r.outcome
       case None => r.destroyed == Elements(r.errors) && (r.n > 0 ==> |r.errors| < r.n)
       case Some(Connected(i)) =>
         && i < r.n && r.destroyed >= All(r.n) - {i}
         && (i in r.destroyed <==> i in r.errors)
       case Some(Failed(errors)) => errors == r.errors && OneEach(r.n, errors) && r.destroyed == All(r.n)
       case Some(Aborted) => r.destroyed == All(r.n)
  }

  lemma {:induction false} Distinct(s: seq<nat>)
    requires NoRepeats(s)
    ensures |Elements(s)| == |s|
  {
    if s != [] {
      var init, last := s[..|s| - 1], s[|s| - 1];
      Distinct(init);
      assert Elements(s) == Elements(init) + {last};
    } else {
      assert Elements(s) == {};
    }
  }

  lemma Subset(a: set<nat>, b: set<nat>)
    requires a <= b && |a| == |b|
    ensures a == b
  {
    if x :| x in b && x !in a {
      Smaller(a, b - {x});
    }
  }

  lemma {:induction false} Smaller(a: set<nat>, b: set<nat>)
    requires a <= b
    ensures |a| <= |b|
    decreases a
  {
    if x :| x in a {
      Smaller(a - {x}, b - {x});
    }
  }

  lemma StartInv(n: nat)
    ensures Inv(Start(n))
  {
    assert Elements([]) == {};
  }

  /** Only a winner can still fail when the race is over. */
  lemma LateErrorInv(r: Race, i: nat)
    requires Inv(r) && i in r.listening && r.outcome.Some?
    ensures Inv(Next(r, Error(i)))
  {
    OneMore(r.errors, i, r.destroyed);
    assert i in All(r.n) && i !in r.destroyed;
    hide All, Elements, NoRepeats;
    assert r.outcome.value == Connected(i);
  }

  lemma ErrorInv(r: Race, i: nat)
    requires Inv(r) && i in r.listening && r.outcome.None?
    ensures Inv(Next(r, Error(i)))
  {
    var errors := r.errors + [i];
    OneMore(r.errors, i, r.destroyed);
    AllSize(r.n);
    Moved(r.listening, r.destroyed, i);
    assert r.destroyed + {i} == Elements(errors);
    Counted(Elements(errors), All(r.n));
    hide All, Elements, NoRepeats;
    assert r.n > 0;
  }

  lemma Moved(listening: set<nat>, destroyed: set<nat>, i: nat)
    requires listening !! destroyed && i in listening
    ensures listening - {i} !! destroyed + {i}
    ensures (listening - {i}) + (destroyed + {i}) == listening + destroyed >= destroyed + {i}
  {
  }

  lemma Counted(a: set<nat>, b: set<nat>)
    requires a <= b
    ensures |a| <= |b| && (|a| == |b| ==> a == b)
  {
    Smaller(a, b);
    if |a| == |b| {
      Subset(a, b);
    }
  }

  lemma OneMore(errors: seq<nat>, i: nat, destroyed: set<nat>)
    requires NoRepeats(errors) && Elements(errors) <= destroyed && i !in destroyed
    ensures NoRepeats(errors + [i]) && Elements(errors + [i]) == Elements(errors) + {i}
    ensures |Elements(errors + [i])| == |errors| + 1
    ensures forall j: nat :: j in errors + [i] <==> j in errors || j == i
  {
    assert i !in Elements(errors);
    Distinct(errors + [i]);
  }

  lemma NextInv(r: Race, e: Event)
    requires Inv(r)
    ensures Inv(Next(r, e)) && Next(r, e).n == r.n
    ensures r.outcome.Some? ==> Next(r, e).outcome == r.outcome
  {
    match e
    case Error(i) =>
      if i in r.listening {
        hide Inv;
        if r.outcome.None? {
          ErrorInv(r, i);
        } else {
          LateErrorInv(r, i);
        }
      }
    case Connect(i) =>
      assert i in r.errors <==> i in Elements(r.errors);
      hide NoRepeats, Elements;
    case Abort =>
      hide NoRepeats, Elements;
  }

  lemma {:induction false} RunInv(r: Race, es: seq<Event>)
    requires Inv(r)
    ensures Inv(Run(r, es)) && Run(r, es).n == r.n
    ensures r.outcome.Some? ==> Run(r, es).outcome == r.outcome
    decreases |es|
  {
    hide Inv, Next;
    if es != [] {
      NextInv(r, es[0]);
      RunInv(Next(r, es[0]), es[1..]);
    }
  }

  /**
   The outcome of a race, by itself: the first address to connect that has not failed,
   unless all have failed before or the attempt was called off.
   */
  function Decide(n: nat, failed: seq<nat>, es: seq<Event>): Option<Outcome>
    decreases |es|
  {
    if es == [] then None
    else
      match es[0]
      case Abort => Some(Aborted)
      case Connect(i) => if i < n && i !in failed then Some(Connected(i)) else Decide(n, failed, es[1..])
      case Error(i) =>
        if i >= n || i in failed then Decide(n, failed, es[1..])
        else if |failed| + 1 == n then Some(Failed(failed + [i]))
        else Decide(n, failed + [i], es[1..])
  }

  lemma {:induction false} RunDecides(r: Race, es: seq<Event>)
    requires Inv(r) && r.outcome.None?
    ensures Run(r, es).outcome == Decide(r.n, r.errors, es)
    decreases |es|
  {
    hide Inv, Next;
    if es != [] {
      var m := Next(r, es[0]);
      NextInv(r, es[0]);
      StepDecides(r, es[0]);
      if m.outcome.None? {
        RunDecides(m, es[1..]);
      } else {
        RunInv(m, es[1..]);
      }
    }
  }

  lemma StepDecides(r: Race, e: Event)
    requires Inv(r) && r.outcome.None?
    ensures
      var m := Next(r, e);
      match e
      case Abort => m.outcome == Some(Aborted)
      case Connect(i) => if i < r.n && i !in r.errors then m.outcome == Some(Connected(i)) else m == r
      case Error(i) =>
        if i >= r.n || i in r.errors then m == r
        else if |r.errors| + 1 == r.n then m.outcome == Some(Failed(r.errors + [i]))
        else m.errors == r.errors + [i] && m.outcome == None
  {
    hide NoRepeats;
    forall i: nat ensures i in r.listening <==> i < r.n && i !in r.errors {
      assert i in r.errors <==> i in Elements(r.errors);
      assert i in All(r.n) <==> i < r.n;
    }
    hide Elements, Inv, All;
  }

  /**
   Over every order of events: the promise settles once, as the reference decides;
   the sockets of the others are destroyed and free of listeners, each of them after
   an abort; and it fails only with one error for each address.
   */
  lemma RaceOutcome(n: nat, es: seq<Event>)
    ensures
      var r := Run(Start(n), es);
      && r.outcome == Decide(n, [], es)
      && r.listening == All(n) - r.destroyed
      && match r.outcome
         case None => r.destroyed == Elements(r.errors)
         case Some(Connected(i)) => i < n && r.destroyed >= All(n) - {i} && r.listening <= {i}
         case Some(Failed(errors)) => OneEach(n, errors) && r.destroyed == All(n) && r.listening == {}
         case Some(Aborted) => r.destroyed == All(n) && r.listening == {}
  {
    StartInv(n);
    RunInv(Start(n), es);
    RunDecides(Start(n), es);
  }

  /** The winner's socket is destroyed by the race if and only if it fails after it has won. */
  lemma {:induction false} WinnerSurvives(r: Race, es: seq<Event>)
    requires Inv(r) && r.outcome.Some? && r.outcome.value.Connected? && r.outcome.value.socket !in r.destroyed
    ensures r.outcome.value.socket in Run(r, es).destroyed <==> Error(r.outcome.value.socket) in es
    decreases |es|
  {
    var i := r.outcome.value.socket;
    if es != [] {
      var m := Next(r, es[0]);
      NextInv(r, es[0]);
      if es[0] == Error(i) {
        assert i in m.destroyed;
        DestroyedStays(m, es[1..], i);
      } else {
        WinnerSurvives(m, es[1..]);
      }
    }
  }

  lemma {:induction false} DestroyedStays(r: Race, es: seq<Event>, i: nat)
    requires i in r.destroyed
    ensures i in Run(r, es).destroyed
    decreases |es|
  {
    if es != [] {
      DestroyedStays(Next(r, es[0]), es[1..], i);
    }
  }

  /** With no address at all, nothing but an abort ever settles it. */
  lemma {:induction false} NoAddress(es: seq<Event>)
    ensures Decide(0, [], es) == if Abort in es then Some(Aborted) else None
    decreases |es|
  {
    if es != [] && es[0] != Abort {
      NoAddress(es[1..]);
    }
  }

  class ParallelConnect {
    const n: nat
    var listening: array<bool>
    var destroyed: array<bool>
    var errors: seq<nat>
    var abortListening: bool
    var outcome: Option<Outcome>

    ghost predicate Valid()
      reads this, listening, destroyed
    {
      listening.Length == n && destroyed.Length == n && listening != destroyed
    }

    ghost function Abs(): Race
      requires Valid()
      reads this, listening, destroyed
    {
      Race(n, Marked(listening), Marked(destroyed), errors, abortListening, outcome)
    }

    constructor (n: nat)
      ensures Valid() && Abs() == Start(n) && fresh(listening) && fresh(destroyed)
    {
      this.n := n;
      listening := new bool[n](_ => true);
      destroyed := new bool[n](_ => false);
      errors, abortListening, outcome := [], true, None;
    }

    method Resolve(o: Outcome)
      requires Valid()
      modifies this`outcome
      ensures Abs() == Settle(old(Abs()), o)
    {
      if outcome.None? {
        outcome := Some(o);
      }
    }

    method OnError(i: nat)
      requires Valid() && i < n && listening[i]
      modifies this, listening, destroyed
      ensures Valid() && listening == old(listening) && destroyed == old(destroyed)
      ensures Abs() == Next(old(Abs()), Error(i))
    {
      errors := errors + [i];
      listening[i] := false;
      destroyed[i] := true;
      assert Marked(listening) == old(Marked(listening)) - {i} && Marked(destroyed) == old(Marked(destroyed)) + {i};
      if |errors| == n {
        abortListening := false;
        Resolve(Failed(errors));
      }
    }

    /** Destroys every socket but one, if there is one to keep. */
    method DestroyAllBut(kept: Option<nat>)
      requires Valid()
      modifies listening, destroyed
      ensures
        var gone := if kept.Some? then All(n) - {kept.value} else All(n);
        Abs() == old(Abs()).(listening := old(Abs()).listening - gone, destroyed := old(Abs()).destroyed + gone)
    {
      for j := 0 to n
        invariant forall k | 0 <= k < n ::
          listening[k] == (old(listening[k]) && (k >= j || kept == Some(k))) && destroyed[k] == (old(destroyed[k]) || (k < j && kept != Some(k)))
      {
        if kept == Some(j) {
          continue;
        }
        listening[j] := false;
        destroyed[j] := true;
      }
    }

    method OnConnect(i: nat)
      requires Valid() && i < n && listening[i]
      modifies this, listening, destroyed
      ensures Valid() && listening == old(listening) && destroyed == old(destroyed)
      ensures Abs() == Next(old(Abs()), Connect(i))
    {
      abortListening := false;
      DestroyAllBut(Some(i));
      Resolve(Connected(i));
    }

    method OnAbort()
      requires Valid() && abortListening
      modifies this, listening, destroyed
      ensures Valid() && listening == old(listening) && destroyed == old(destroyed)
      ensures Abs() == Next(old(Abs()), Abort)
    {
      abortListening := false;
      DestroyAllBut(None);
      Resolve(Aborted);
    }
  }

  ghost function Marked(a: array<bool>): set<nat>
    reads a
  {
    set i: nat | i < a.Length && a[i]
  }

  // One after the other.

  /** The address that is tried at present, and what has become of the others. */
  datatype Turn = Turn(
    n: nat, at: nat, listening: set<nat>, destroyed: set<nat>, errors: seq<nat>, abortListening: bool, outcome: Option<Outcome>)

  /** The errors of the first `k` addresses, in turn. */
  function FirstErrors(k: nat): seq<nat> {
    seq(k, i => i)
  }

  /** With no addresses there is nothing to try. */
  function FirstTurn(n: nat): Turn {
    if n == 0 then Turn(0, 0, {}, {}, [], false, Some(Failed([])))
    else Turn(n, 0, {0}, {}, [], true, None)
  }

  /** An error is followed by the next address at once, before any other event. */
  function NextTurn(t: Turn, e: Event): Turn {
    match e
    case Error(i) =>
      if i !in t.listening then t
      else
        var m := t.(listening := t.listening - {i}, destroyed := t.destroyed + {i}, errors := t.errors + [i]);
        if t.at + 1 < t.n then m.(at := t.at + 1, listening := m.listening + {t.at + 1})
        else m.(abortListening := false, outcome := Some(Failed(m.errors)))
    case Connect(i) =>
      if i !in t.listening then t
      else t.(listening := t.listening - {i}, abortListening := false, outcome := Some(Connected(i)))
    case Abort =>
      if !t.abortListening then t
      else t.(listening := t.listening - {t.at}, destroyed := t.destroyed + {t.at}, abortListening := false, outcome := Some(Aborted))
  }

  function TakeTurns(t: Turn, es: seq<Event>): Turn
    decreases |es|
  {
    if es == [] then t else TakeTurns(NextTurn(t, es[0]), es[1..])
  }

  /** The outcome by itself: what comes first of the address in turn, or the abort, decides. */
  function InTurn(n: nat, k: nat, es: seq<Event>): Option<Outcome>
    decreases |es|
  {
    if k >= n then Some(Failed(FirstErrors(n)))
    else if es == [] then None
    else
      match es[0]
      case Abort => Some(Aborted)
      case Connect(i) => if i == k then Some(Connected(k)) else InTurn(n, k, es[1..])
      case Error(i) => InTurn(n, if i == k then k + 1 else k, es[1..])
  }

  /** One socket at a time: those of the addresses that failed are destroyed, and the winner's is free of listeners and is not. */
  predicate TurnOk(t: Turn) {
    && t.abortListening == t.outcome.None?
    && match t.outcome
       case None => t.at < t.n && t.listening == {t.at} && t.destroyed == All(t.at) && t.errors == FirstErrors(t.at)
       case Some(Connected(i)) => i == t.at < t.n && t.listening == {} && t.destroyed == All(i)
       case Some(Failed(errors)) => errors == FirstErrors(t.n) && t.listening == {} && t.destroyed == All(t.n)
       case Some(Aborted) => t.at < t.n && t.listening == {} && t.destroyed == All(t.at + 1)
  }

  lemma {:induction false} AllNext(k: nat)
    ensures All(k + 1) == All(k) + {k} && k !in All(k)
    ensures FirstErrors(k + 1) == FirstErrors(k) + [k]
  {
  }

  lemma {:induction false} FirstTurnOk(n: nat)
    ensures TurnOk(FirstTurn(n))
  {
    assert All(0) == {} && FirstErrors(0) == [];
  }

  lemma {:induction false} NextTurnOk(t: Turn, e: Event)
    requires TurnOk(t)
    ensures TurnOk(NextTurn(t, e)) && NextTurn(t, e).n == t.n && (t.outcome.Some? ==> NextTurn(t, e) == t)
  {
    AllNext(t.at);
    hide All, FirstErrors;
  }

  lemma {:induction false} TakeTurnsOk(t: Turn, es: seq<Event>)
    requires TurnOk(t)
    ensures TurnOk(TakeTurns(t, es)) && TakeTurns(t, es).n == t.n
    ensures t.outcome.Some? ==> TakeTurns(t, es) == t
    ensures t.outcome.None? ==> TakeTurns(t, es).outcome == InTurn(t.n, t.at, es)
    decreases |es|
  {
    hide FirstErrors, All;
    if es != [] {
      NextTurnOk(t, es[0]);
      TakeTurnsOk(NextTurn(t, es[0]), es[1..]);
      if t.outcome.None? && NextTurn(t, es[0]).outcome.Some? && es[0].Error? {
        assert InTurn(t.n, t.at, es) == InTurn(t.n, t.at + 1, es[1..]) == Some(Failed(FirstErrors(t.n)));
      }
    }
  }

  /** Over every order of events: one outcome, as the reference decides, with the fate of every socket. */
  lemma {:induction false} TurnOutcome(n: nat, es: seq<Event>)
    ensures
      var t := TakeTurns(FirstTurn(n), es);
      && t.outcome == InTurn(n, 0, es)
      && match t.outcome
         case None => t.listening == {t.at} && t.destroyed == All(t.at)
         case Some(Connected(i)) => i < n && t.listening == {} && t.destroyed == All(i)
         case Some(Failed(errors)) => errors == FirstErrors(n) && t.listening == {} && t.destroyed == All(n)
         case Some(Aborted) => t.listening == {} && t.destroyed == All(t.at + 1)
  {
    FirstTurnOk(n);
    TakeTurnsOk(FirstTurn(n), es);
    assert FirstErrors(0) == [];
  }

  class SequentialConnect {
    const n: nat
    var at: nat
    var listening: array<bool>
    var destroyed: array<bool>
    var errors: seq<nat>
    var abortListening: bool
    var outcome: Option<Outcome>

    ghost predicate Valid()
      reads this, listening, destroyed
    {
      listening.Length == n && destroyed.Length == n && listening != destroyed && TurnOk(Abs())
    }

    ghost function Abs(): Turn
      reads this, listening, destroyed
    {
      Turn(n, at, Marked(listening), Marked(destroyed), errors, abortListening, outcome)
    }

    constructor (n: nat)
      ensures Valid() && Abs() == FirstTurn(n) && fresh(listening) && fresh(destroyed)
    {
      this.n, at := n, 0;
      listening := new bool[n](i => i == 0);
      destroyed := new bool[n](_ => false);
      errors, abortListening, outcome := [], n > 0, if n == 0 then Some(Failed([])) else None;
      new;
      FirstTurnOk(n);
    }

    method Flag(a: array<bool>, i: nat, b: bool)
      requires i < a.Length && a in {listening, destroyed} && listening != destroyed
      modifies a
      ensures Marked(a) == if b then old(Marked(a)) + {i} else old(Marked(a)) - {i}
      ensures a != listening ==> Marked(listening) == old(Marked(listening))
      ensures a != destroyed ==> Marked(destroyed) == old(Marked(destroyed))
    {
      a[i] := b;
    }

    method OnError(i: nat)
      requires Valid() && i < n && listening[i]
      modifies this, listening, destroyed
      ensures Valid() && listening == old(listening) && destroyed == old(destroyed)
      ensures Abs() == NextTurn(old(Abs()), Error(i))
    {
      NextTurnOk(Abs(), Error(i));
      assert i in Marked(listening);
      Flag(listening, i, false);
      Flag(destroyed, i, true);
      errors := errors + [i];
      if at + 1 < n {
        at := at + 1;
        Flag(listening, at, true);
      } else {
        abortListening, outcome := false, Some(Failed(errors));
      }
    }

    method OnConnect(i: nat)
      requires Valid() && i < n && listening[i]
      modifies this, listening
      ensures Valid() && listening == old(listening) && destroyed == old(destroyed)
      ensures Abs() == NextTurn(old(Abs()), Connect(i))
    {
      NextTurnOk(Abs(), Connect(i));
      assert i in Marked(listening);
      Flag(listening, i, false);
      abortListening, outcome := false, Some(Connected(i));
    }

    method OnAbort()
      requires Valid() && abortListening
      modifies this, listening, destroyed
      ensures Valid() && listening == old(listening) && destroyed == old(destroyed)
      ensures Abs() == NextTurn(old(Abs()), Abort)
    {
      NextTurnOk(Abs(), Abort);
      Flag(listening, at, false);
      Flag(destroyed, at, true);
      abortListening, outcome := false, Some(Aborted);
    }
  }
}
