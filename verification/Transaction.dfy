/**
 Nested transactions for TDS versions before 7.2: a tree of `transaction()`
 calls becomes a flat list of BEGIN, SAVE, ROLLBACK and COMMIT batches, and the
 connection keeps count with `transactionDepth` and `inTransaction`.
 */
module Transaction {
  import opened Wrappers

  // The program: what the callbacks given to `transaction()` do.

  datatype Level = ReadUncommitted | ReadCommitted | RepeatableRead | Serializable | Snapshot

  /** One call: its generated name, the isolation level that it asks for, if any, its callback, and how that reports. */
  datatype Tx<!D> = Tx(name: string, isolation: Option<Level>, body: Body<D>, ok: bool)

  /** The batches and nested calls of a callback, in order. A failing batch may have done some of its work. */
  datatype Body<!D> =
    | Done
    | Batch(effect: D -> D, fails: bool, rest: Body<D>)
    | Nested(tx: Tx<D>, rest: Body<D>)

  /** The intended meaning: a call that reports an error undoes its own writes, and no others. */
  function Meaning<D>(tx: Tx<D>, db: D): D {
    if tx.ok then BodyMeaning(tx.body, db) else db
  }

  function BodyMeaning<D>(body: Body<D>, db: D): D {
    match body
    case Done => db
    case Batch(effect, _, rest) => BodyMeaning(rest, effect(db))
    case Nested(tx, rest) => BodyMeaning(rest, Meaning(tx, db))
  }

  function Names<D>(tx: Tx<D>): set<string> {
    {tx.name} + BodyNames(tx.body)
  }

  function BodyNames<D>(body: Body<D>): set<string> {
    match body
    case Done => {}
    case Batch(_, _, rest) => BodyNames(rest)
    case Nested(tx, rest) => Names(tx) + BodyNames(rest)
  }

  /** No generated name occurs twice. */
  predicate Distinct<D>(tx: Tx<D>) {
    tx.name !in BodyNames(tx.body) && BodyDistinct(tx.body)
  }

  predicate BodyDistinct<D>(body: Body<D>) {
    match body
    case Done => true
    case Batch(_, _, rest) => BodyDistinct(rest)
    case Nested(tx, rest) => Distinct(tx) && Names(tx) !! BodyNames(rest) && BodyDistinct(rest)
  }

  // The server.

  datatype Command<!D> =
    | BeginTran(name: string, level: Level)
    | SaveTran(name: string)
    | SetIsolationLevel(level: Level)
    | Statement(effect: D -> D)
    | RollbackTran(name: string)
    | CommitTran(name: string)
    | ResetConnection

  datatype Savepoint<D> = Savepoint(name: string, db: D)

  datatype Open<D> = Open(name: string, base: D, count: nat, savepoints: seq<Savepoint<D>>)

  /** `rejected` counts the batches that the server answered with an error of its own. */
  datatype Server<D> = Server(db: D, open: Option<Open<D>>, rejected: nat)

  /** The latest savepoint of that name. */
  function FindSavepoint<D>(savepoints: seq<Savepoint<D>>, name: string): (k: Option<nat>)
    ensures k.Some? ==> k.value < |savepoints| && savepoints[k.value].name == name
  {
    if savepoints == [] then None
    else
      var last := |savepoints| - 1;
      if savepoints[last].name == name then Some(last) else FindSavepoint(savepoints[..last], name)
  }

  function Apply<D>(s: Server<D>, command: Command<D>): Server<D> {
    match command
    case BeginTran(name, _) =>
      if s.open.None? then s.(open := Some(Open(name, s.db, 1, [])))
      else s.(open := Some(s.open.value.(count := s.open.value.count + 1)))
    case SetIsolationLevel(_) => s
    case Statement(effect) => s.(db := effect(s.db))
    case SaveTran(name) =>
      if s.open.None? then s.(rejected := s.rejected + 1)
      else s.(open := Some(s.open.value.(savepoints := s.open.value.savepoints + [Savepoint(name, s.db)])))
    case CommitTran(_) =>
      if s.open.None? then s.(rejected := s.rejected + 1)
      else if s.open.value.count <= 1 then s.(open := None)
      else s.(open := Some(s.open.value.(count := s.open.value.count - 1)))
    case ResetConnection => if s.open.None? then s else s.(db := s.open.value.base, open := None)
    case RollbackTran(name) =>
      if s.open.None? then s.(rejected := s.rejected + 1)
      else
        var open := s.open.value;
        match FindSavepoint(open.savepoints, name)
        case Some(k) => s.(db := open.savepoints[k].db, open := Some(open.(savepoints := open.savepoints[..k + 1])))
        case None =>
          if name == open.name then s.(db := open.base, open := None)
          else s.(rejected := s.rejected + 1)
  }

  function Replay<D>(s: Server<D>, commands: seq<Command<D>>): Server<D>
    decreases |commands|
  {
    if commands == [] then s else Replay(Apply(s, commands[0]), commands[1..])
  }

  // The client's bookkeeping.

  function Asked(isolation: Option<Level>, level: Level): Level {
    if isolation.Some? then isolation.value else level
  }

  datatype Client = Client(depth: int, inTransaction: bool)

  /** The flag says what the depth says. */
  predicate InSync(c: Client) {
    c.depth >= 0 && (c.inTransaction <==> c.depth >= 1)
  }

  /** Client and server, with the flat list of commands, the client's state after each step, and the level of the connection's options. */
  datatype Link<!D> = Link(client: Client, server: Server<D>, sent: seq<Command<D>>, states: seq<Client>, level: Level) {
    function Send(command: Command<D>): Link<D> {
      this.(server := Apply(server, command), sent := sent + [command])
    }

    function Set(c: Client): Link<D> {
      this.(client := c, states := states + [c])
    }

    function Begin(name: string, isolation: Option<Level>): Link<D> {
      Send(BeginTran(name, Asked(isolation, level))).Set(Client(client.depth + 1, client.inTransaction || client.depth == 0))
    }

    function Save(name: string): Link<D> {
      Send(SaveTran(name)).Set(client.(depth := client.depth + 1))
    }

    function Leave(): Link<D> {
      Set(Client(client.depth - 1, client.inTransaction && client.depth != 1))
    }

    function Run(effect: D -> D, fails: bool): Link<D> {
      Send(Statement(effect)).Set(client.(inTransaction := client.inTransaction && !fails))
    }

    /** The reset rolls back on the server, and its callback clears the flag. */
    function Reset(): Link<D> {
      Send(ResetConnection).Set(client.(inTransaction := false))
    }

    /** How a call starts: with a savepoint inside a transaction, with a transaction outside. */
    function Enter(tx: Tx<D>): Link<D> {
      if client.inTransaction then
        if tx.isolation.Some? then Save(tx.name).Send(SetIsolationLevel(tx.isolation.value)) else Save(tx.name)
      else Begin(tx.name, tx.isolation)
    }

    /** How it ends, given how it started. */
    function Exit(tx: Tx<D>, useSavepoint: bool): Link<D> {
      if !tx.ok then
        if client.inTransaction then Send(RollbackTran(tx.name)).Leave() else this
      else if useSavepoint then Set(client.(depth := client.depth - 1))
      else Send(CommitTran(tx.name)).Leave()
    }
  }

  function RunTx<D>(tx: Tx<D>, l: Link<D>): Link<D> {
    RunBody(tx.body, l.Enter(tx)).Exit(tx, l.client.inTransaction)
  }

  function RunBody<D>(body: Body<D>, l: Link<D>): Link<D> {
    match body
    case Done => l
    case Batch(effect, fails, rest) => RunBody(rest, l.Run(effect, fails))
    case Nested(tx, rest) => RunBody(rest, RunTx(tx, l))
  }

  // Failing batches. A failing batch clears `inTransaction` and leaves the depth alone, so a call
  // that ends in an error after one finds no transaction to roll back.

  /** Whether some batch has failed by the end of the call, in the order of execution. */
  predicate FailedAfter<D>(tx: Tx<D>, before: bool) {
    BodyFailedAfter(tx.body, before)
  }

  predicate BodyFailedAfter<D>(body: Body<D>, before: bool) {
    match body
    case Done => before
    case Batch(_, fails, rest) => BodyFailedAfter(rest, before || fails)
    case Nested(tx, rest) => BodyFailedAfter(rest, FailedAfter(tx, before))
  }

  /** The number of calls that report an error when some batch before that has failed. */
  function Leaks<D>(tx: Tx<D>, before: bool): nat {
    BodyLeaks(tx.body, before) + if !tx.ok && FailedAfter(tx, before) then 1 else 0
  }

  function BodyLeaks<D>(body: Body<D>, before: bool): nat {
    match body
    case Done => 0
    case Batch(_, fails, rest) => BodyLeaks(rest, before || fails)
    case Nested(tx, rest) => Leaks(tx, before) + BodyLeaks(rest, FailedAfter(tx, before))
  }

  lemma {:induction false} NoFailureNoLeak<D>(tx: Tx<D>, before: bool)
    requires !FailedAfter(tx, before)
    ensures Leaks(tx, before) == 0 && !before
    decreases tx
  {
    BodyNoFailureNoLeak(tx.body, before);
  }

  lemma {:induction false} BodyNoFailureNoLeak<D>(body: Body<D>, before: bool)
    requires !BodyFailedAfter(body, before)
    ensures BodyLeaks(body, before) == 0 && !before
    decreases body
  {
    match body
    case Done =>
    case Batch(_, fails, rest) => BodyNoFailureNoLeak(rest, before || fails);
    case Nested(tx, rest) =>
      BodyNoFailureNoLeak(rest, FailedAfter(tx, before));
      NoFailureNoLeak(tx, before);
  }

  // Depth, for every tree and every pattern of failures.

  /** Inside a transaction, every leak leaves the depth one too high. */
  lemma {:induction false} DepthInside<D>(tx: Tx<D>, l: Link<D>)
    requires l.client.depth >= 1
    ensures
      var r := RunTx(tx, l).client;
      && r.depth == l.client.depth + Leaks(tx, !l.client.inTransaction)
      && r.inTransaction == !FailedAfter(tx, !l.client.inTransaction)
    decreases tx
  {
    BodyDepthInside(tx.body, l.Enter(tx));
  }

  lemma {:induction false} BodyDepthInside<D>(body: Body<D>, l: Link<D>)
    requires l.client.depth >= 1
    ensures
      var r := RunBody(body, l).client;
      && r.depth == l.client.depth + BodyLeaks(body, !l.client.inTransaction)
      && r.inTransaction == !BodyFailedAfter(body, !l.client.inTransaction)
    decreases body
  {
    match body
    case Done =>
    case Batch(effect, fails, rest) => BodyDepthInside(rest, l.Run(effect, fails));
    case Nested(tx, rest) =>
      DepthInside(tx, l);
      BodyDepthInside(rest, RunTx(tx, l));
  }

  /** A top-level call returns the depth to zero if and only if nothing leaks; else it is off by the number of leaks. */
  lemma DepthTopLevel<D>(tx: Tx<D>, l: Link<D>)
    requires l.client == Client(0, false)
    ensures RunTx(tx, l).client == Client(Leaks(tx, false), false)
  {
    BodyDepthInside(tx.body, l.Enter(tx));
    if !FailedAfter(tx, false) {
      NoFailureNoLeak(tx, false);
    }
  }

  // What the server does.

  ghost predicate Fresh<D>(open: Open<D>, names: set<string>) {
    open.name !in names && forall i | 0 <= i < |open.savepoints| :: open.savepoints[i].name !in names
  }

  /** The same transaction, perhaps with more savepoints, whose names are among those given. */
  ghost predicate Extends<D>(r: Open<D>, open: Open<D>, names: set<string>) {
    && r == open.(savepoints := r.savepoints)
    && |open.savepoints| <= |r.savepoints|
    && r.savepoints[..|open.savepoints|] == open.savepoints
    && forall i | |open.savepoints| <= i < |r.savepoints| :: r.savepoints[i].name in names
  }

  lemma {:induction false} FindIn<D>(savepoints: seq<Savepoint<D>>, name: string, k: nat)
    requires k < |savepoints| && savepoints[k].name == name
    requires forall i | k < i < |savepoints| :: savepoints[i].name != name
    ensures FindSavepoint(savepoints, name) == Some(k)
    decreases |savepoints|
  {
    if k < |savepoints| - 1 {
      FindIn(savepoints[..|savepoints| - 1], name, k);
    }
  }

  lemma {:induction false} FindNone<D>(savepoints: seq<Savepoint<D>>, name: string)
    requires forall i | 0 <= i < |savepoints| :: savepoints[i].name != name
    ensures FindSavepoint(savepoints, name) == None
    decreases |savepoints|
  {
    if savepoints != [] {
      FindNone(savepoints[..|savepoints| - 1], name);
    }
  }

  /** What a leak-free stretch of a program leaves on a server with an open transaction. */
  ghost predicate Leaves<D>(r: Server<D>, s: Server<D>, names: set<string>, db: D) {
    && s.open.Some? && r.open.Some?
    && r == Server(db, r.open, s.rejected)
    && Extends(r.open.value, s.open.value, names)
  }

  lemma {:induction false} MeaningInside<D>(tx: Tx<D>, l: Link<D>)
    requires l.client.depth >= 1 && Distinct(tx) && Leaks(tx, !l.client.inTransaction) == 0
    requires l.server.open.Some? && l.server.open.value.count >= 1 && Fresh(l.server.open.value, Names(tx))
    ensures Leaves(RunTx(tx, l).server, l.server, Names(tx), Meaning(tx, l.server.db))
    decreases tx
  {
    var entered := l.Enter(tx);
    var s, e := l.server.open.value, entered.server.open.value;
    BodyMeaningInside(tx.body, entered);
    BodyDepthInside(tx.body, entered);
    var after := RunBody(tx.body, entered);
    var a := after.server.open.value;
    if l.client.inTransaction {
      var k := |s.savepoints|;
      assert e.savepoints[k] == Savepoint(tx.name, l.server.db);
      assert a.savepoints[k] == a.savepoints[..|e.savepoints|][k];
      assert a.savepoints[..k] == a.savepoints[..|e.savepoints|][..k] == s.savepoints;
      if !tx.ok {
        FindIn(a.savepoints, tx.name, k);
        assert a.savepoints[..k + 1][..k] == s.savepoints;
      }
    } else {
      BodyFailureStays(tx.body);
    }
  }

  lemma {:induction false} BodyMeaningInside<D>(body: Body<D>, l: Link<D>)
    requires l.client.depth >= 1 && BodyDistinct(body) && BodyLeaks(body, !l.client.inTransaction) == 0
    requires l.server.open.Some? && l.server.open.value.count >= 1 && Fresh(l.server.open.value, BodyNames(body))
    ensures Leaves(RunBody(body, l).server, l.server, BodyNames(body), BodyMeaning(body, l.server.db))
    decreases body
  {
    match body
    case Done =>
    case Batch(effect, fails, rest) => BodyMeaningInside(rest, l.Run(effect, fails));
    case Nested(tx, rest) =>
      MeaningInside(tx, l);
      DepthInside(tx, l);
      var m := RunTx(tx, l);
      StillFresh(m.server.open.value, l.server.open.value, Names(tx), BodyNames(rest));
      BodyMeaningInside(rest, m);
      var a, b, c := l.server.open.value, m.server.open.value, RunBody(rest, m).server.open.value;
      assert c.savepoints[..|a.savepoints|] == c.savepoints[..|b.savepoints|][..|a.savepoints|] == a.savepoints;
      forall i | |a.savepoints| <= i < |c.savepoints| ensures c.savepoints[i].name in BodyNames(body) {
        if i < |b.savepoints| {
          assert c.savepoints[i] == c.savepoints[..|b.savepoints|][i];
        }
      }
  }

  lemma StillFresh<D>(r: Open<D>, open: Open<D>, names: set<string>, others: set<string>)
    requires Extends(r, open, names) && names !! others && Fresh(open, others)
    ensures Fresh(r, others)
  {
    forall i | 0 <= i < |r.savepoints| ensures r.savepoints[i].name !in others {
      if i < |open.savepoints| {
        assert r.savepoints[i] == r.savepoints[..|open.savepoints|][i];
      }
    }
  }

  /** A call made outside a transaction. */
  ghost predicate TopLevel<D>(l: Link<D>) {
    l.client == Client(0, false) && l.server.open.None?
  }

  /**
   The flat commands mean what the tree means, the server rejects none of them
   and ends outside a transaction, and the client's bookkeeping is as before: if
   and only if no callback reports an error once a batch has failed.
   */
  lemma NestedMeaning<D>(tx: Tx<D>, l: Link<D>)
    requires TopLevel(l) && Distinct(tx)
    ensures
      var r := RunTx(tx, l);
      (TopLevel(r) && r.server == Server(Meaning(tx, l.server.db), None, l.server.rejected)) <==> Leaks(tx, false) == 0
  {
    DepthTopLevel(tx, l);
    if Leaks(tx, false) == 0 {
      var entered := l.Enter(tx);
      BodyMeaningInside(tx.body, entered);
      BodyDepthInside(tx.body, entered);
      var open := RunBody(tx.body, entered).server.open.value;
      if !tx.ok {
        FindNone(open.savepoints, tx.name);
      }
    }
  }

  /** With every batch succeeding there is no condition left. */
  lemma NestedMeaningAllSucceed<D>(tx: Tx<D>, l: Link<D>)
    requires TopLevel(l) && Distinct(tx) && !FailedAfter(tx, false)
    ensures RunTx(tx, l).client == l.client
    ensures RunTx(tx, l).server == l.server.(db := Meaning(tx, l.server.db))
  {
    NoFailureNoLeak(tx, false);
    NestedMeaning(tx, l);
  }

  /** Any failing batch that its callback reports: the transaction stays open on the server, and the depth stays at one. */
  lemma ReportedFailureLeaks<D>(name: string, effect: D -> D, l: Link<D>)
    requires TopLevel(l)
    ensures
      var tx := Tx(name, None, Batch(effect, true, Done), false);
      var r := RunTx(tx, l);
      && Distinct(tx) && Leaks(tx, false) == 1
      && r.client == Client(1, false)
      && r.server == Server(effect(l.server.db), Some(Open(name, l.server.db, 1, [])), l.server.rejected)
  {
    var tx := Tx(name, None, Batch(effect, true, Done), false);
    var last: Body<D> := Done;
    assert BodyFailedAfter(last, true) && BodyLeaks(last, true) == 0 && BodyNames(last) == {};
    assert BodyFailedAfter(tx.body, false) && BodyLeaks(tx.body, false) == 0 && BodyNames(tx.body) == {};
    var failed := l.Begin(name, None).Run(effect, true);
    assert RunBody(Done, failed) == failed;
    assert RunBody(tx.body, l.Enter(tx)) == failed;
  }

  // One call after another.

  function RunAll<D>(txs: seq<Tx<D>>, l: Link<D>): Link<D>
    decreases |txs|
  {
    if txs == [] then l else RunAll(txs[1..], RunTx(txs[0], l))
  }

  function MeaningAll<D>(txs: seq<Tx<D>>, db: D): D
    decreases |txs|
  {
    if txs == [] then db else MeaningAll(txs[1..], Meaning(txs[0], db))
  }

  lemma {:induction false} SessionMeaning<D>(txs: seq<Tx<D>>, l: Link<D>)
    requires TopLevel(l)
    requires forall i | 0 <= i < |txs| :: Distinct(txs[i]) && Leaks(txs[i], false) == 0
    ensures TopLevel(RunAll(txs, l))
    ensures RunAll(txs, l).server == Server(MeaningAll(txs, l.server.db), None, l.server.rejected)
    decreases |txs|
  {
    if txs != [] {
      NestedMeaning(txs[0], l);
      SessionMeaning(txs[1..], RunTx(txs[0], l));
    }
  }

  // The flag and the depth agree at every moment, as long as no batch fails.

  ghost predicate AllInSync(states: seq<Client>) {
    forall i | 0 <= i < |states| :: InSync(states[i])
  }

  lemma {:induction false} AlwaysInSync<D>(tx: Tx<D>, l: Link<D>)
    requires InSync(l.client) && AllInSync(l.states) && !FailedAfter(tx, false)
    ensures AllInSync(RunTx(tx, l).states)
    ensures RunTx(tx, l).client == l.client
    decreases tx
  {
    var entered := l.Enter(tx);
    BodyAlwaysInSync(tx.body, entered);
  }

  lemma {:induction false} BodyAlwaysInSync<D>(body: Body<D>, l: Link<D>)
    requires InSync(l.client) && AllInSync(l.states) && !BodyFailedAfter(body, false)
    ensures AllInSync(RunBody(body, l).states)
    ensures RunBody(body, l).client == l.client
    decreases body
  {
    match body
    case Done =>
    case Batch(effect, fails, rest) =>
      if fails {
        BodyFailureStays(rest);
      }
      BodyAlwaysInSync(rest, l.Run(effect, fails));
    case Nested(tx, rest) =>
      if FailedAfter(tx, false) {
        BodyFailureStays(rest);
      }
      AlwaysInSync(tx, l);
      BodyAlwaysInSync(rest, RunTx(tx, l));
  }

  lemma BodyFailureStays<D>(body: Body<D>)
    ensures BodyFailedAfter(body, true)
  {
    if !BodyFailedAfter(body, true) {
      BodyNoFailureNoLeak(body, true);
    }
  }

  // The flat list, told from the tree.

  /**
   What a call inside a transaction sends, given whether a batch has failed before it:
   a savepoint with the level behind it, if one is asked for, or else a transaction that
   sets the level of its own; then what its body sends; and then its end.
   */
  function Commands<D>(tx: Tx<D>, failed: bool, level: Level): seq<Command<D>> {
    StartCommands(tx, failed, level) + BodyCommands(tx.body, failed, level) + EndCommands(tx, failed)
  }

  function StartCommands<D>(tx: Tx<D>, failed: bool, level: Level): seq<Command<D>> {
    if failed then [BeginTran(tx.name, Asked(tx.isolation, level))]
    else [SaveTran(tx.name)] + if tx.isolation.Some? then [SetIsolationLevel(tx.isolation.value)] else []
  }

  function EndCommands<D>(tx: Tx<D>, failed: bool): seq<Command<D>> {
    if tx.ok then if failed then [CommitTran(tx.name)] else []
    else if FailedAfter(tx, failed) then []
    else [RollbackTran(tx.name)]
  }

  function BodyCommands<D>(body: Body<D>, failed: bool, level: Level): seq<Command<D>> {
    match body
    case Done => []
    case Batch(effect, fails, rest) => [Statement(effect)] + BodyCommands(rest, failed || fails, level)
    case Nested(tx, rest) => Commands(tx, failed, level) + BodyCommands(rest, FailedAfter(tx, failed), level)
  }

  lemma {:induction false} SentInside<D>(tx: Tx<D>, l: Link<D>)
    requires l.client.depth >= 1
    ensures RunTx(tx, l).sent == l.sent + Commands(tx, !l.client.inTransaction, l.level) && RunTx(tx, l).level == l.level
    decreases tx
  {
    hide Apply, FindSavepoint, Names, BodyNames;
    var failed, e := !l.client.inTransaction, l.Enter(tx);
    BodyDepthInside(tx.body, e);
    BodySentInside(tx.body, e);
    var m := RunBody(tx.body, e);
    var start, body, end := StartCommands(tx, failed, l.level), BodyCommands(tx.body, failed, l.level), EndCommands(tx, failed);
    assert e.sent == l.sent + start && e.level == l.level;
    assert m.client.inTransaction == !FailedAfter(tx, failed);
    hide RunBody, BodyCommands, FailedAfter, StartCommands;
    assert RunTx(tx, l).sent == m.sent + end && RunTx(tx, l).level == m.level;
    hide RunTx, EndCommands;
    assert l.sent + start + body + end == l.sent + (start + body + end);
  }

  lemma {:induction false} BodySentInside<D>(body: Body<D>, l: Link<D>)
    requires l.client.depth >= 1
    ensures RunBody(body, l).sent == l.sent + BodyCommands(body, !l.client.inTransaction, l.level) && RunBody(body, l).level == l.level
    decreases body
  {
    match body
    case Done =>
    case Batch(effect, fails, rest) =>
      hide Apply;
      BodySentInside(rest, l.Run(effect, fails));
    case Nested(tx, rest) =>
      hide Apply, RunTx, Commands, FailedAfter, Leaks;
      var m := RunTx(tx, l);
      DepthInside(tx, l);
      SentInside(tx, l);
      BodySentInside(rest, m);
      OneMoreCall(tx, rest, !l.client.inTransaction, l.level, l.sent);
      hide BodyCommands;
  }

  lemma {:induction false} OneMoreCall<D>(tx: Tx<D>, rest: Body<D>, failed: bool, level: Level, sent: seq<Command<D>>)
    ensures sent + BodyCommands(Nested(tx, rest), failed, level) ==
      sent + Commands(tx, failed, level) + BodyCommands(rest, FailedAfter(tx, failed), level)
  {
  }

  /**
   The flat list of a whole call, for every tree and every pattern of failures: each
   level that is asked for is set right behind its savepoint or with its transaction,
   ahead of the body, and nowhere else.
   */
  lemma SentTopLevel<D>(tx: Tx<D>, l: Link<D>)
    requires l.client == Client(0, false)
    ensures
      var end := if tx.ok then [CommitTran(tx.name)] else if FailedAfter(tx, false) then [] else [RollbackTran(tx.name)];
      RunTx(tx, l).sent == l.sent + [BeginTran(tx.name, Asked(tx.isolation, l.level))] + BodyCommands(tx.body, false, l.level) + end
  {
    BodyDepthInside(tx.body, l.Enter(tx));
    BodySentInside(tx.body, l.Enter(tx));
  }

  // The flat list is what the server saw.

  lemma {:induction false} ReplayAppend<D>(s: Server<D>, commands: seq<Command<D>>, command: Command<D>)
    ensures Replay(s, commands + [command]) == Apply(Replay(s, commands), command)
    decreases |commands|
  {
    if commands == [] {
      assert (commands + [command])[1..] == [];
    } else {
      assert (commands + [command])[1..] == commands[1..] + [command];
      ReplayAppend(Apply(s, commands[0]), commands[1..], command);
    }
  }

  // Resetting the connection.

  /** A reset leaves the depth as it was, and so agrees with it if and only if it was zero. */
  lemma {:induction false} ResetInSync<D>(l: Link<D>)
    ensures InSync(l.Reset().client) <==> l.client.depth == 0
    ensures l.Reset().server.open.None?
  {
  }

  /**
   After a reset within a transaction, a call means what it should and leaves the
   bookkeeping as it was if and only if no call in it reports an error: none of them
   finds that it is in a transaction, so that nothing is rolled back.
   */
  lemma {:induction false} AfterReset<D>(tx: Tx<D>, l: Link<D>)
    requires l.client.depth >= 1 && !l.client.inTransaction && l.server.open.None? && Distinct(tx)
    ensures
      var r := RunTx(tx, l);
      (r.client == l.client && r.server == Server(Meaning(tx, l.server.db), None, l.server.rejected)) <==> Leaks(tx, true) == 0
  {
    var entered := l.Enter(tx);
    BodyDepthInside(tx.body, entered);
    BodyFailureStays(tx.body);
    assert RunTx(tx, l).client.depth == l.client.depth + Leaks(tx, true);
    if Leaks(tx, true) == 0 {
      BodyMeaningInside(tx.body, entered);
    }
  }

  // The connection's own methods.

  class Connection<!D> {
    var transactionDepth: int
    var inTransaction: bool
    var server: Server<D>
    var sent: seq<Command<D>>
    const isolationLevel: Level
    ghost var states: seq<Client>
    ghost const before: Server<D>

    ghost function Abs(): Link<D>
      reads this
    {
      Link(Client(transactionDepth, inTransaction), server, sent, states, isolationLevel)
    }

    /** The server's state is what the commands sent make of it. */
    ghost predicate Valid()
      reads this
    {
      server == Replay(before, sent)
    }

    constructor (db: D, isolationLevel: Level)
      ensures Valid() && Abs() == Link(Client(0, false), Server(db, None, 0), [], [], isolationLevel)
    {
      this.isolationLevel := isolationLevel;
      transactionDepth, inTransaction := 0, false;
      server, before := Server(db, None, 0), Server(db, None, 0);
      sent, states := [], [];
    }

    /** Sends a batch; one that fails clears the flag before its callback is called. */
    method ExecSqlBatch(command: Command<D>, fails: bool)
      requires Valid()
      modifies this`server, this`sent, this`inTransaction
      ensures Valid() && server == Apply(old(server), command) && sent == old(sent) + [command]
      ensures inTransaction == (old(inTransaction) && !fails)
    {
      ReplayAppend(before, sent, command);
      server := Apply(server, command);
      sent := sent + [command];
      if fails {
        inTransaction := false;
      }
    }

    /** The batch sets the level, too: the one that is asked for, or else the connection's own. */
    method BeginTransaction(name: string, isolation: Option<Level>)
      requires Valid()
      modifies this
      ensures Valid() && Abs() == old(Abs()).Begin(name, isolation)
    {
      ExecSqlBatch(BeginTran(name, Asked(isolation, isolationLevel)), false);
      transactionDepth := transactionDepth + 1;
      if transactionDepth == 1 {
        inTransaction := true;
      }
      states := states + [Client(transactionDepth, inTransaction)];
    }

    method CommitTransaction(name: string)
      requires Valid()
      modifies this
      ensures Valid() && Abs() == old(Abs()).Send(CommitTran(name)).Leave()
    {
      ExecSqlBatch(CommitTran(name), false);
      transactionDepth := transactionDepth - 1;
      if transactionDepth == 0 {
        inTransaction := false;
      }
      states := states + [Client(transactionDepth, inTransaction)];
    }

    method RollbackTransaction(name: string)
      requires Valid()
      modifies this
      ensures Valid() && Abs() == old(Abs()).Send(RollbackTran(name)).Leave()
    {
      ExecSqlBatch(RollbackTran(name), false);
      transactionDepth := transactionDepth - 1;
      if transactionDepth == 0 {
        inTransaction := false;
      }
      states := states + [Client(transactionDepth, inTransaction)];
    }

    method SaveTransaction(name: string)
      requires Valid()
      modifies this
      ensures Valid() && Abs() == old(Abs()).Save(name)
    {
      ExecSqlBatch(SaveTran(name), false);
      transactionDepth := transactionDepth + 1;
      states := states + [Client(transactionDepth, inTransaction)];
    }

    /** The initial SQL again, in a message that asks the server to reset. */
    method Reset()
      requires Valid()
      modifies this
      ensures Valid() && Abs() == old(Abs()).Reset()
    {
      ExecSqlBatch(ResetConnection, false);
      inTransaction := false;
      states := states + [Client(transactionDepth, inTransaction)];
    }

    method Transaction(tx: Tx<D>)
      requires Valid()
      modifies this
      ensures Valid() && Abs() == RunTx(tx, old(Abs()))
      ensures old(TopLevel(Abs())) && Distinct(tx) && Leaks(tx, false) == 0 ==>
        TopLevel(Abs()) && server == Server(Meaning(tx, old(server.db)), None, old(server.rejected))
      decreases tx
    {
      if TopLevel(Abs()) && Distinct(tx) {
        NestedMeaning(tx, Abs());
      }
      var useSavepoint := inTransaction;
      if useSavepoint {
        SaveTransaction(tx.name);
        if tx.isolation.Some? {
          ExecSqlBatch(SetIsolationLevel(tx.isolation.value), false);
        }
      } else {
        BeginTransaction(tx.name, tx.isolation);
      }
      Callback(tx.body);
      if !tx.ok {
        if inTransaction {
          RollbackTransaction(tx.name);
        }
      } else if useSavepoint {
        transactionDepth := transactionDepth - 1;
        states := states + [Client(transactionDepth, inTransaction)];
      } else {
        CommitTransaction(tx.name);
      }
    }

    /** What the user's callback does between the start and the end of its transaction. */
    method Callback(body: Body<D>)
      requires Valid()
      modifies this
      ensures Valid() && Abs() == RunBody(body, old(Abs()))
      decreases body
    {
      match body
      case Done =>
      case Batch(effect, fails, rest) =>
        ExecSqlBatch(Statement(effect), fails);
        states := states + [Client(transactionDepth, inTransaction)];
        Callback(rest);
      case Nested(tx, rest) =>
        Transaction(tx);
        Callback(rest);
    }
  }
}
