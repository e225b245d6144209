# Verification of the client's protocol core

A model, in Dafny, of the parts of the TDS client (MS-TDS) that carry state or
layout, with proofs about every input, every run and every order of events.

- `Packet.dfy`, `OutgoingMessageStream.dfy`, `IncomingMessageStream.dfy`, `Framing.dfy`:
  messages are cut into packets, cross the wire in pieces, and are put together again.
  The two streams are classes with the buffers, loops and suspensions of the originals.
  The main theorem, `Framing.EndToEnd`, covers every chunking, packet size from 9 to
  65535, cancellation point and re-splitting; `Framing.Transfer` is about both objects together,
  and `Framing.ReadsAnyPackets` about packets from elsewhere.
- `Transaction.dfy`: nested `transaction()` calls before TDS 7.2, compiled to a flat list
  of commands, against a server with named savepoints. Batches may fail, and
  `NestedMeaning` says exactly when the nested meaning is preserved.
- `ConnectionSpec.dfy` and the other files whose names begin with `Connection`: the state
  machine with its 14 states, four timers, connection attempts, cancellation and attentions.
  `ConnectionSpec.dfy` says what each event does, and `ConnectionSteps.dfy` repeats that branch by
  branch for the proofs; `ConnectionCallbacks.dfy` is about what callbacks and listeners do in the
  middle of an event, and `ConnectionInvariant.dfy` proves what every event keeps.
  `ConnectionPaths.dfy` has runs of events and the steps that they are built of. The conclusions
  about every run are in `ConnectionRuns.dfy` (order, timers and outcomes),
  `ConnectionAttempts.dfy` (retries, the connect timer, and which states there are),
  `ConnectionOutcomes.dfy` (which outcomes there are), `ConnectionFinal.dfy` (what can follow the
  end), `ConnectionUnheard.dfy` (an attention without an acknowledgement) and
  `ConnectionRequests.dfy` (what becomes of every request that was made). `Connection.dfy` is the
  connection object itself, with entry and exit actions, dispatch and listeners, each method
  proved to do what the first file says. Callbacks are programs that make requests, cancel them
  and close the connection, to any depth; a request that was given up keeps its listeners and can
  still be cancelled.
- `Login7Payload.dfy`: the LOGIN7 message, written into a buffer with running offsets, and a
  reader that follows the offsets back. `Login7Wire.dfy` says what stands at each offset, in
  arithmetic on the bytes.
- `MetadataParser.dfy`: column metadata, for every type, with the parser that is retried
  when data is missing. The readers accept exactly the grammar given there, and
  `MetadataWire.dfy` says byte by byte what follows the number of each type.
- `Connector.dfy`, `Sender.dfy`, `InstanceLookup.dfy`: races between connections and
  between UDP sockets, connecting in turn, and the lookup in the browser's answer.
- `BulkLoad.dfy`: the stream of a bulk load, and a reader of it.
- `Bytes.dfy`, `Wrappers.dfy`: integers and text in bytes; optional values.

`dafny verify dfyconfig.toml` checks everything.

## What the code does that a reader may not expect

Each of these is proved as a property with its exact condition.

- A connection that has ended does not stay so if a retry is due, if a connection attempt is
  under way, if a security token is waited for, or if its last request was given up while its
  response was being read and is cancelled after that (`ConnectionFinal.FinalIsFinal`).
  `ConnectionFinal.CloseIsFinal` says the same of the state in which the user closes.
- The last of these leads back to SENT_ATTENTION, where the handler of a socket error looks for a
  request that is not there; an attempt or a retry can lead there too, and a token cannot
  (`ConnectionFinal.MissesItsRequest`).
- A callback of closing that cancels its request while the response to it is being read, and then
  closes, is called twice (`ConnectionRuns.ExactlyOnce`).
- A request that is cancelled, and completed by its response all the same, reports ECANCEL only if
  the cancel found its payload streaming and the destroyed payload has reported that before the
  response ends. A cancel that comes later, while the rest of the message is being written or
  behind the message, reports success, and so does one whose payload is slower to report than the
  server to answer, as that of a bulk load can be (`ConnectionRuns.TimeoutOutcome`; runs that lead
  there, `ConnectionOutcomes.CanceledSuccess`).
- Closing the connection in the listener of 'retry' does not keep the retry from starting another
  attempt (`ConnectionFinal.RetryWhatever`).
- With `cancelTimeout` 0, a request that is cancelled between its message and the response is
  completed by that response, as a success, while its attention is still unanswered
  (`ConnectionOutcomes.AttentionAnswered`).
- After a response in SENT_ATTENTION that does not acknowledge the attention, no further response
  is read, although a comment there says that responses are discarded until the acknowledgement
  comes. Only the cancel timer, the socket or closing end such a request
  (`ConnectionUnheard.NotHeardAgain`, `ConnectionUnheard.NeverHeardAgain`).
- A batch that fails before TDS 7.2 clears `inTransaction` and leaves the depth, so that a
  callback that reports it leaves the transaction open (`Transaction.NestedMeaning`, and
  `Transaction.ReportedFailureLeaks` for the simplest case); resetting the connection within a
  transaction does the same to the calls after it (`Transaction.AfterReset`).
- LOGIN7 without a host name has an offset in place of a length, and data behind SSPI is
  given the offset of the SSPI data (`Login7Payload.SoundExactly`). A new password is written
  without being scrambled (`Login7Payload.ReadBackExactly`), and the option flag that announces
  one is never set.
- The winner of a connection race keeps the race's listeners (`Connector.WinnerSurvives`),
  and the UDP race counts errors without telling sockets apart (`Sender.GivenUpExactly`).
- The browser's answer is searched with the last name remembered across instances, so that a
  port ahead of the name of one instance can be taken for that of another
  (`InstanceLookup.OwnPort`; `InstanceLookup.NamelessInstance` is such an answer).

## Assumptions

- Continuations of a message that is read are delivered in the state that started them, and
  nothing arrives from a socket that has been destroyed but errors and its closing. A connection
  attempt, and the wait for a security token, complete in whatever state they find; the connect
  timer calls the attempt off, and nothing else does anything of the kind.
- A response starts only after its request message has finished. A payload that was destroyed
  while streaming reports its error at any time after that, if ever before the response ends; one
  that has ended reports no error when it is destroyed.
- A request's own `cancel` emits at most once (`lib/request.js:363-370`), and the token
  handlers do nothing for a cancelled request. A request object is used once.
- The connection's 'error' event has a listener. What listeners and callbacks do is making
  requests, cancelling and closing; they do not throw.
- In connecting one after the other, the next attempt starts before any other event comes.
- Generated transaction names are distinct. The transaction commands themselves succeed when
  the server accepts them; only the user's batches fail.
- Before TDS 7.2 the server does not report the end of a transaction by a token of its own, so
  that only the code of the transaction calls, failing batches and resetting change `inTransaction`.
- The numbers given to LOGIN7 fit in 32 bits.

## Model

| member | source | states |
|---|---|---|
| Packet.Middle | lib/outgoing-message-stream.js:42-45 | every byte of a packet built by the setters in the packetiser's order: type, status 8 with the reset flag and else 0, big-endian length, no process id, id modulo 256, no window, data |
| Packet.Final | lib/outgoing-message-stream.js:58-63 | every byte of the closing packet; its status is 1, with 2 more if and only if the message is ignored and 8 more if and only if it resets |
| Packet.WithFlag | lib/packet.js:70-99 | setting or clearing one status flag decides that flag and leaves the other two as they were |
| Packet.SaysRead | lib/packet.js:60-99 | what a receiver reads from those bytes: type, end, flags and data |
| OutgoingMessageStream.CutPoint | lib/outgoing-message-stream.js:36-39 | taking full payloads off the front of the buffer gives the same payloads and the same rest wherever the chunk boundaries fall |
| OutgoingMessageStream.CanonicalPayloads | lib/outgoing-message-stream.js:36-55 | the payloads of a message concatenate to its content, and there are max(1, ceil(n / payload size)) of them |
| OutgoingMessageStream.CanonicalPackets | lib/outgoing-message-stream.js:29-69 | the packets of a message, byte by byte: how many, all but the last full, ids from 1, the same reset flag on all, the end flag and possibly the ignore flag on the last only, no other status bit, payloads adding up to the content |
| OutgoingMessageStream.OutgoingMessageStream.Write | lib/outgoing-message-stream.js:28-31 | a new message starts with packet number 0 and with the packet size of that moment |
| OutgoingMessageStream.OutgoingMessageStream.OnData | lib/outgoing-message-stream.js:32-52 | a chunk of an ignored message changes nothing; any other is accepted, and what has been sent stays the canonical packets of all that was accepted |
| OutgoingMessageStream.OutgoingMessageStream.OnEnd | lib/outgoing-message-stream.js:53-69 | at the end the output has grown by exactly the canonical packets of the accepted content, the buffer list is empty and there is no current message |
| OutgoingMessageStream.OutgoingMessageStream.Read | lib/outgoing-message-stream.js:71-77 | a message that was paused flows again, and nothing else changes |
| IncomingMessageStream.SettleAppend | lib/incoming-message-stream.js:40-93 | reading what has arrived and then more is the same as reading all of it at once, errors included |
| IncomingMessageStream.IncomingMessageStream.ReceivePacket | lib/incoming-message-stream.js:48-80 | one packet grows the open message or finishes it, and leaves at most one continuation pending |
| IncomingMessageStream.IncomingMessageStream.ProcessBufferedData | lib/incoming-message-stream.js:40-89 | the loop ends, because each round consumes at least a header, with the buffer settled, or suspended on one event, or failed |
| IncomingMessageStream.IncomingMessageStream.Transform | lib/incoming-message-stream.js:90-93 | a chunk is taken when nothing is pending; the invariant ties the messages to all bytes received, and callbacks to chunks: each called once |
| IncomingMessageStream.IncomingMessageStream.OnMessageEnd | lib/incoming-message-stream.js:67-70 | when the finished message has ended there is no current one, and reading goes on from where it stopped |
| IncomingMessageStream.IncomingMessageStream.OnMessageDrain | lib/incoming-message-stream.js:76-78 | when the message has drained, reading goes on with the same message |
| Framing.MessageCarried | lib/incoming-message-stream.js:40-89 | a receiver between messages reads the packets of one message as that message, whatever follows |
| Framing.EndToEnd | lib/incoming-message-stream.js:40-93 | over every sequence of messages, every chunking, packet size, flag and cancellation point, and every re-splitting of the bytes, the receiver reads exactly the types and contents that were sent, with nothing left over |
| Framing.NeverFails | lib/incoming-message-stream.js:45-47 | no prefix of a stream that is read without an error is refused |
| Framing.SendMessage | lib/outgoing-message-stream.js:28-77 | the chunks of a message, some of them after it was cancelled, add its canonical packets to the output, through all pauses |
| Framing.Deliver | lib/incoming-message-stream.js:90-93 | a piece of the wire is taken, suspended and resumed until its callback has been called |
| Framing.Transfer | lib/outgoing-message-stream.js:28-70 | the two stream objects together, with any way of cutting the wire: what is received is what was sent |
| Framing.PacketSizes | lib/outgoing-message-stream.js:28-55 | every packet of a message but the last has the negotiated size, and none is larger |
| Framing.ReadsAnyPackets | lib/incoming-message-stream.js:40-93 | any packets with the right lengths, whatever process id, packet ids, window and other status bits they have, are read as the messages that their types and end flags make of them; what is behind them is kept, and refused if and only if its length is below 8 |
| Framing.AnyBytes | lib/incoming-message-stream.js:40-47 | every sequence of bytes is such packets and such a rest, so that nothing is left unsaid |
| Transaction.NoFailureNoLeak | lib/connection.js:2616-2618 | when every batch succeeds, no call is left on the wrong path |
| Transaction.DepthInside | lib/connection.js:2018-2039 | inside a transaction a call leaves the depth as it was plus the number of failures reported after the flag was cleared |
| Transaction.DepthTopLevel | lib/connection.js:1904-1965 | a top-level call returns the depth to zero exactly when nothing leaks, and is off by the number of leaks otherwise |
| Transaction.MeaningInside | lib/connection.js:2014-2061 | the flat commands of a nested call turn the server's database into the one the tree means, and keep the enclosing transaction with its savepoints |
| Transaction.NestedMeaning | lib/connection.js:2014-2061 | for every tree of calls with distinct names: the BEGIN, SAVE, ROLLBACK and COMMIT list means what the tree means and ends outside a transaction, if and only if no callback reports an error once a batch has failed |
| Transaction.NestedMeaningAllSucceed | lib/connection.js:2014-2061 | with all batches succeeding the flat list has the nested meaning and restores the bookkeeping, without a condition |
| Transaction.ReportedFailureLeaks | lib/connection.js:2023-2030 | one failing batch that its callback reports leaves the transaction open on the server and the depth at one |
| Transaction.SessionMeaning | lib/connection.js:2014-2061 | one top-level call after another composes their meanings |
| Transaction.SentInside | lib/connection.js:2040-2055 | the list of commands of a call inside a transaction, for every tree and every pattern of failures: its isolation level right behind its savepoint if and only if it asks for one, ahead of its body, and how it ends |
| Transaction.SentTopLevel | lib/connection.js:1902-1912 | the whole list of a top-level call, beginning with a transaction at the level asked for, or else at the connection's own |
| Transaction.AlwaysInSync | lib/connection.js:1904-1988 | with all batches succeeding, after every step of every tree `inTransaction` says whether the depth is at least one |
| Transaction.ResetInSync | lib/connection.js:2147-2158 | resetting leaves the depth, so that the flag agrees with it if and only if it was zero |
| Transaction.AfterReset | lib/connection.js:2147-2158 | after a reset within a transaction a call has its nested meaning and restores the bookkeeping if and only if no call in it reports an error |
| Transaction.Connection.ExecSqlBatch | lib/connection.js:2616-2619 | a batch that fails clears the flag before its callback runs |
| Transaction.Connection.BeginTransaction | lib/connection.js:1902-1912 | BEGIN TRAN goes out with the level asked for or the connection's own, raises the depth, and sets the flag at depth one |
| Transaction.Connection.CommitTransaction | lib/connection.js:1931-1939 | COMMIT TRAN lowers the depth, and clears the flag at depth zero |
| Transaction.Connection.RollbackTransaction | lib/connection.js:1957-1965 | ROLLBACK TRAN to a name lowers the depth, and clears the flag at depth zero |
| Transaction.Connection.SaveTransaction | lib/connection.js:1983-1988 | SAVE TRAN raises the depth and leaves the flag alone |
| Transaction.Connection.Reset | lib/connection.js:2147-2158 | the server rolls back, the flag is cleared, and the depth stays |
| Transaction.Connection.Transaction | lib/connection.js:2014-2061 | a whole call, with its callback and everything nested in it, does what the flat program says, and so has the nested meaning when nothing leaks |
| ConnectionCallbacks.QuietScript | lib/connection.js:1018-1022 | on a connection that has ended, with its request cancelled, callbacks only get their requests refused |
| ConnectionCallbacks.AttentionScript | lib/connection.js:2593-2607 | a callback of closing that has cancelled its request is called again if and only if it closes after that |
| ConnectionCallbacks.ClosingScript | lib/connection.js:1018-1022 | what a callback of closing can do, told from its script: nothing, or cancel its request, or be called a second time |
| ConnectionCallbacks.IdleScript | lib/connection.js:1012-1013 | listeners of a connection without a request close it or change nothing |
| ConnectionCallbacks.GoneScript | lib/connection.js:2629-2634 | on a connection that is gone no callback completes, sends or arms anything but the cancel timer |
| ConnectionInvariant.CloseEnds | lib/connection.js:1004-1026 | what closing makes of a request in progress, with everything that its callback does to it in the meantime |
| ConnectionInvariant.CloseInv | lib/connection.js:1004-1026 | closing keeps the invariant, completes the request in progress with ECLOSE, and leaves none |
| ConnectionInvariant.ScriptInv | lib/connection.js:1018-1022 | whatever a callback does, making requests, cancelling and closing to any depth of re-entrance, keeps the invariant |
| ConnectionInvariant.MakeInv | lib/connection.js:2066-2099 | a request refused, deferred or accepted keeps the invariant, which asks for an armed timer if and only if the request asks for one and is still unanswered; and so does whatever the callback of a refused one does |
| ConnectionInvariant.CancelInv | lib/connection.js:2086-2113 | cancelling keeps the invariant in every phase of a request, its payload streaming or ended |
| ConnectionInvariant.CancelAbandonedInv | lib/request.js:363-370 | cancelling a request whose connection is gone keeps the invariant, which allows for waiting for an attention without a request |
| ConnectionInvariant.LoseInv | lib/connection.js:2629-2634 | a lost connection is closed and its request completed with what happened |
| ConnectionInvariant.CrashInv | lib/connection.js:2669-2675 | a socket error without a request: the handler misses it, once, and the connection has ended |
| ConnectionInvariant.RequestTimerInv | lib/connection.js:1226-1233 | the request timer finds its request, which is then cancelled, marked, and has ETIMEOUT as its error |
| ConnectionInvariant.CancelTimerInv | lib/connection.js:1217-1221 | the cancel timer completes the request whose attention was not answered, if there is one, and closes |
| ConnectionInvariant.ResponseEndedInv | lib/connection.js:2608-2620 | a response that ends completes its request with its own error, ahead of whatever the callback causes |
| ConnectionInvariant.AttentionInv | lib/connection.js:2650-2662 | an acknowledged attention completes the request with ETIMEOUT if its timer fired, and else with ECANCEL |
| ConnectionInvariant.PayloadInv | lib/connection.js:2108-2118 | a payload that ends, breaks or reports that it was destroyed keeps the invariant |
| ConnectionInvariant.LoginInv | lib/connection.js:2326-2519 | every answer to a login keeps the invariant, retries, rerouting and the listeners that hear of it included |
| ConnectionInvariant.ConnectDoneInv | lib/connection.js:1115-1126 | an attempt that succeeds keeps the invariant in whatever state it finds the connection |
| ConnectionInvariant.TokenArrivesInv | lib/connection.js:1471-1481 | a security token that arrives keeps the invariant, which allows for logging in over a socket that is gone |
| ConnectionInvariant.NextInv | lib/connection.js:2192-2695 | every event in every state keeps the invariant |
| ConnectionRuns.ExactlyOnce | lib/connection.js:1004-1026 | in every run the accepted requests are those called back, in order, and then the current one; a callback is called a second time if and only if its request was closed while its response was being read by a callback that cancels and then closes, and nothing can follow that |
| ConnectionRuns.NothingUnhandled | lib/connection.js:1305-1324 | in every reachable state no event goes without a handler, and no timer or attempt is lost to another; a handler misses its request at most once, and only if the last one was given up while its response was being read |
| ConnectionRuns.RequestTimed | lib/connection.js:1175-1184 | in every reachable state the request timer is armed if and only if there is a request that asks for it, whose response has not started and whose timer has not fired |
| ConnectionRuns.NoStaleTimers | lib/connection.js:1150-1194 | in LOGGED_IN no timer is armed and no attempt under way, so that none can hit the next request |
| ConnectionRuns.CancelIsOneOfTwo | lib/connection.js:826-829 | for each accepted request the wire holds at most its message and then one attention; a cancel either cuts the message short or sends the attention, never both |
| ConnectionRuns.AttentionOutstanding | lib/connection.js:2638-2668 | in SENT_ATTENTION the attention on the wire is the current request's, and with a cancel timeout its timer is armed |
| ConnectionRuns.CancelTimerEndsIt | lib/connection.js:1217-1221 | from SENT_ATTENTION the cancel timer leads to the final state with the request completed |
| ConnectionRuns.TimeoutOutcome | lib/connection.js:2084-2118 | how every completed request came out. Completed by its response: ETIMEOUT if its timer fired; else, if it was cancelled, ECANCEL if and only if the cancel cut its message short while the payload was streaming and the payload has reported that by then, the error of the payload if and only if that had cut the message, and otherwise a success; and if it was not cancelled, an error of the server, or else the error of the payload if that had cut the message, and otherwise a success. Acknowledged: ETIMEOUT if its timer fired, and else ECANCEL. Closed: ECLOSE. Lost: the failure of the socket or of the cancel timer |
| ConnectionRuns.ErrorDecides | lib/connection.js:2608-2620 | an error that the server reports is what an uncancelled request completes with, whatever error it had before |
| ConnectionOutcomes.OutcomesExactly | lib/connection.js:2084-2118 | over all runs from LOGGED_IN, which outcomes the next request can complete with, in each way of completing: ETIMEOUT by a response in any case, and by an acknowledgement if and only if there is a cancel timeout, and so on for every outcome |
| ConnectionOutcomes.MakesTheNext | lib/connection.js:2608-2620 | the callback of a request that has completed can make the next one, whose timer is armed if it asks for one |
| ConnectionOutcomes.MakesTheFirst | lib/connection.js:1576-1579 | a listener that hears of the connection being made can make the first one |
| ConnectionOutcomes.CanceledSuccess | lib/connection.js:2084-2118 | from LOGGED_IN some run cancels a request while its message is being written, after its payload has ended or before, and completes it as a success |
| ConnectionAttempts.RetriesBounded | lib/token/handler.js:189-191 | over every run the retries, told from its states, are counted, and there are no more of them than configured |
| ConnectionAttempts.RetriesExactly | lib/connection.js:2346-2353 | a transient failure leads to a retry if and only if there is one left, and else ends the connection; nothing else leads to one |
| ConnectionAttempts.ConnectTimerArmed | lib/connection.js:971-976 | an attempt in CONNECTING has its timer armed |
| ConnectionAttempts.ConnectTimerKept | lib/connection.js:1150-1157 | the timer runs on until it fires, the attempt fails, the initial SQL is done, or the connection ends or starts again |
| ConnectionAttempts.StatesExactly | lib/connection.js:2192-2695 | over all runs a new connection gets into a state if and only if its options allow for it |
| ConnectionOutcomes.AttentionAnswered | lib/connection.js:2579-2581 | from LOGGED_IN some run has a request completed by its response while its attention is unanswered, if and only if there is no cancel timeout; and so for one that comes out as a success although it was cancelled |
| ConnectionFinal.FinalIsFinal | lib/connection.js:1004-1026 | over all runs a connection that has ended stays so if and only if no retry is due, no attempt is under way, no security token is waited for, and its last request was not given up while its response was being read, or has been cancelled since |
| ConnectionFinal.CloseIsFinal | lib/connection.js:967-969 | over all runs a connection that the user closes is closed for good if and only if, at that moment, no retry is due, no attempt is under way, no security token is waited for, no request given up before can lead back to waiting for an attention, and no response is being read to a request that is not cancelled, unless its callback cancels and then closes |
| ConnectionFinal.LateConnectReopens | lib/connection.js:1115-1126 | closing leaves a connection attempt under way if and only if there is one, and one that completes opens the connection again |
| ConnectionFinal.CloseKeepsRetryTimer | lib/connection.js:1004-1012 | closing while a retry is due leaves its timer armed, in every such state |
| ConnectionFinal.MissesItsRequest | lib/connection.js:2669-2675 | from a connection that has ended some run leads a handler to a request that is not there, if and only if there is one of these ways out other than the token |
| ConnectionFinal.ConnectTimeoutIsFinal | lib/connection.js:1199-1211 | a connect timeout ends the connection and calls the attempt off, for good if and only if no security token is waited for |
| ConnectionFinal.RetryWhatever | lib/connection.js:1238-1242 | a retry that falls due starts an attempt, whatever those who are told of it do |
| ConnectionUnheard.NotHeardAgain | lib/connection.js:2638-2663 | a request whose attention was answered without an acknowledgement is given up by closing, a callback that closes, the cancel timer and the socket, and left as it is by every other event |
| ConnectionUnheard.NeverHeardAgain | lib/connection.js:2638-2663 | over every run from there, the request hangs, or it has completed as closed or lost and its connection has ended for good |
| ConnectionUnheard.CanGoUnheard | lib/connection.js:2593-2607 | from LOGGED_IN some run leads to such a request |
| ConnectionRequests.EveryRequestOnce | lib/connection.js:2066-2092 | over every run, of the requests handed over, by the user or by a callback: those that came in LOGGED_IN uncancelled are accepted, and have completed in order but for the one in progress; those that came in another state have got EINVALIDSTATE, in order; those cancelled beforehand have got ECANCEL, in order, but for those that wait for the next tick; and there are no others |
| Connection.CancelByListeners | lib/connection.js:826-829 | the cancel listeners, swapped as the message finishes and the response starts and kept by a request that is given up, do what the phase of the request calls for |
| Connection.Connection.TransitionTo | lib/connection.js:1287-1300 | exit action, new state, entry action; nothing if the state is the same |
| Connection.Connection.CleanupConnection | lib/connection.js:1004-1026 | clears three of the timers and completes the current request, once for each connection that was open |
| Connection.Connection.CleanupForReconnect | lib/connection.js:1004-1026 | for rerouting and retrying: the timers are cleared, and a rerouting is announced before the connection counts as closed |
| Connection.Connection.Reconnect | lib/connection.js:2279-2301 | leaves for a new connection, and counts a retry |
| Connection.Connection.Perform | lib/connection.js:1018-1022 | user code called synchronously makes requests, cancels them and closes the connection, with the full effect of each |
| Connection.Connection.MakeRequest | lib/connection.js:2066-2125 | refuses, defers or starts the request as specified, its timer included, through whatever the refused request's callback does |
| Connection.Connection.EmitCancel | lib/request.js:363-370 | every listener of the request is told once, with the specified effect, the current request and a request given up alike |
| Connection.Connection.EnterAttention | lib/connection.js:2606 | the state for attentions is entered from whatever state, with a request or without |
| Connection.Connection.DispatchEvent | lib/connection.js:1316-1324 | the handler of the present state runs, or the connection is closed for want of one |
| Connection.Connection.OnRequestLost | lib/connection.js:2629-2634 | the request is taken off, the connection closed, and only then the callback called with the error |
| Connection.Connection.OnLoginResponse | lib/connection.js:2328-2509 | acknowledgement, rerouting, challenge, the demand for a token, transient and other errors lead where the source says |
| Connection.Connection.OnTokenArrives | lib/connection.js:1471-1481 | the token is sent and the answer awaited, in whatever state the connection is by then |
| Connection.Connection.OnMessageFinish | lib/connection.js:2099-2106 | once the message has finished the listeners are swapped, so that a later cancel sends an attention |
| Connection.Connection.OnAbandonedFinish | lib/connection.js:2099-2106 | the listeners are swapped even if the request was given up before its message finished |
| Connection.Connection.OnResponseStart | lib/connection.js:2567-2622 | stops the request timer; goes on to wait for the attention if one was sent, and else listens for a cancel |
| Connection.Connection.OnEndOfMessage | lib/connection.js:2608-2620 | logged in again with the request off before its callback is called |
| Connection.Connection.OnAttentionResponse | lib/connection.js:2650-2662 | discards the response, or with the acknowledgement completes the request after the cancel timer is cleared |
| Login7Payload.ScramblePassword | lib/login7-payload.js:385-394 | in every byte, in place: the halves change places, and then the bits 0, 2, 5 and 7 are flipped and no others |
| Login7Payload.HiddenOneWay | lib/login7-payload.js:385-394 | no other byte has these bits |
| Login7Payload.UnscrambleScrambled | lib/login7-payload.js:385-394 | un-scrambling gives back every password |
| Login7Payload.WalkExt | lib/login7-payload.js:325-363 | walking a feature extension by id and length gives its features and ends right behind the terminator |
| Login7Payload.BuildFeatureExt | lib/login7-payload.js:325-363 | the buffers built for the options are the feature extension of the options; a token too long is refused |
| Login7Payload.WriteHeader | lib/login7-payload.js:108-142 | the fields in front of the table, flags included, written at running offsets |
| Login7Payload.WriteText | lib/login7-payload.js:156-168 | an entry of the table and its data, or an error if a number does not fit |
| Login7Payload.WriteHost | lib/login7-payload.js:144-155 | without a host name the offset is written where the length belongs |
| Login7Payload.WritePassword | lib/login7-payload.js:169-181 | the entry of the scrambled password |
| Login7Payload.WriteExtension | lib/login7-payload.js:208-218 | a pointer as data, and behind it the extension it points to |
| Login7Payload.WriteClientIdAndSspi | lib/login7-payload.js:259-278 | the client id, and an SSPI entry that does not move the offset on |
| Login7Payload.ToBuffer | lib/login7-payload.js:102-315 | the running offsets produce the message, or an error if and only if some number does not fit its field |
| Login7Payload.FitsExactly | lib/login7-payload.js:102-315 | when the message can be written, by the sizes of the fields alone |
| Login7Payload.Located | lib/login7-payload.js:104-304 | every offset is where the data is, up to the SSPI data, and short by its length behind it |
| Login7Payload.FollowFeatures | lib/login7-payload.js:208-218 | following the extension pointer leads to the features, which end where the next offset begins |
| Login7Payload.FollowSspi | lib/login7-payload.js:265-311 | cbSSPI and cbSSPILong together give the SSPI length, beyond 65535 too |
| Login7Payload.ReadBack | lib/login7-payload.js:102-315 | with a host name, and nothing behind SSPI data, a reader that follows the table gets every field, flag and feature as it was put in, except that it un-scrambles a new password (section 2.2.6.4 of MS-TDS), which was written unscrambled |
| Login7Payload.ReadBackExactly | lib/login7-payload.js:293-304 | everything is recovered if and only if there is no new password |
| Login7Payload.NoFixedByte | lib/login7-payload.js:385-394 | no byte is its own un-scrambling |
| Login7Payload.NoHostname | lib/login7-payload.js:148-155 | without a host name the table of every message is wrong |
| Login7Payload.NothingBehindSspi | lib/login7-payload.js:267-304 | an attach file or new password together with SSPI data makes the table wrong |
| Login7Payload.SoundExactly | lib/login7-payload.js:102-315 | the length is right and the regions the message names lie inside it without overlap, if and only if there is a host name and nothing behind SSPI data |
| Login7Wire.HeaderBytes | lib/login7-payload.js:108-142 | every field in front of the table, at its own offset: the length, the numbers, the four bytes of flags, the time zone |
| Login7Wire.TableBytes | lib/login7-payload.js:144-304 | every entry of the table, at its own offset, leads to its text by code units, and that of the password to its bits as scrambled; what is there without a host name, and when an entry behind SSPI data is right |
| Login7Wire.SspiBytes | lib/login7-payload.js:259-311 | the SSPI data with both its lengths, and the six bytes of the client id |
| Login7Wire.ExtensionBytes | lib/login7-payload.js:325-363 | the pointer, and behind it the bytes of each feature that the options ask for and of the terminator |
| MetadataParser.MetadataLocal | lib/metadata-parser.js:86-357 | a value or a failure that is settled is the same on every extension of the buffer and at every other position, across all types |
| MetadataParser.MetadataExact | lib/metadata-parser.js:86-357 | reading gives this metadata, ending here, if and only if its encoding stands in the buffer: for every type number, both widths of the user type, and every field |
| MetadataWire.NothingFollows | lib/metadata-parser.js:106-130 | the numbers of the types that nothing follows, and that reading ends there |
| MetadataWire.LengthFollows | lib/metadata-parser.js:131-173 | the numbers of the types with a length alone, its width for each, its value and where reading ends, or how much data is missing |
| MetadataWire.CollationFollows | lib/metadata-parser.js:174-225 | the same for a length and a collation, whose five bytes are one number of 20, 8, 4 and 8 bits |
| MetadataWire.ScaleFollows | lib/metadata-parser.js:284-334 | the same for a scale, and for a length, a precision and a scale |
| MetadataWire.SchemaFollows | lib/metadata-parser.js:265-283 | the three texts of a schema behind a one, by code units, and nothing behind any other byte |
| MetadataWire.UDTFollows | lib/metadata-parser.js:335-353 | the size and the four texts of a user-defined type, by code units |
| MetadataWire.NothingElse | lib/metadata-parser.js:102-106 | every other number fails |
| MetadataWire.TypeBits | lib/data-type.js:47-87 | the law of the bits of the type numbers, which Date alone does not keep |
| MetadataParser.EnoughExactly | lib/metadata-parser.js:358-377 | a prefix is enough if and only if it holds all that is read in the end; a shorter one only asks for more |
| MetadataParser.CollationExact | lib/metadata-parser.js:13-20 | a collation is read if and only if its five bytes are there |
| MetadataParser.FromToBuffer | lib/collation.js:310-319 | every five bytes are the encoding of the collation they decode to |
| MetadataParser.ToFromBuffer | lib/collation.js:337-348 | a collation is decoded from its own encoding |
| MetadataParser.SchemaExact | lib/metadata-parser.js:21-51 | a schema is announced by a one; any other byte stands for none |
| MetadataParser.UDTInfoExact | lib/metadata-parser.js:52-85 | the description of a user-defined type, with its lengths of either kind |
| MetadataParser.CharsExact | lib/token/helpers.js:125-162 | texts with a length of one or two bytes |
| MetadataParser.Parser.WaitForChunk | lib/token/stream-parser.js:322-333 | dropping what was consumed and adding a chunk leaves the rest of the stream as it was |
| MetadataParser.Parser.MetadataParse | lib/metadata-parser.js:358-377 | whatever the chunks, the result and what is left of the stream depend on the whole stream alone |
| Connector.NextInv | lib/connector.js:22-52 | every event keeps: a socket listens until it is destroyed, a failure is recorded once for each address, and a settled race stays settled |
| Connector.RaceOutcome | lib/connector.js:14-67 | over every order of events the promise settles once, as the reference decides; losers are destroyed and free of listeners, an abort destroys all, and it fails only with one error for each address |
| Connector.WinnerSurvives | lib/connector.js:22-44 | the winner keeps the listeners of the race: a later error of its own, and nothing else, destroys it |
| Connector.NoAddress | lib/connector.js:19-66 | with no address only an abort settles the promise |
| Connector.ParallelConnect.OnError | lib/connector.js:22-31 | records the error, destroys the socket, and gives up with the last one |
| Connector.ParallelConnect.DestroyAllBut | lib/connector.js:34-42 | the loop destroys all sockets but the one to keep |
| Connector.TurnOutcome | lib/connector.js:68-116 | one address after the other, over every order of events, abort included: one outcome, as the reference decides; failed sockets are destroyed, the winner's is not and has no listeners left |
| Connector.SequentialConnect.OnError | lib/connector.js:88-94 | destroys the socket and goes on to the next address, or gives up with the last |
| Sender.AnswerOutcome | lib/sender.js:17-55 | over every order of events there is one answer, as the reference decides, and every socket is closed exactly once by then |
| Sender.GivenUpExactly | lib/sender.js:20-27 | a request that was given up has heard from every address if and only if no socket is twice among the first errors, as many as there are addresses |
| Sender.OneSocketGivesUp | lib/sender.js:20-27 | one socket that fails often enough gives up on all addresses |
| Sender.ParallelSend.ClearSockets | lib/sender.js:37-43 | the loop closes each socket once more |
| Sender.ParallelSend.OnError | lib/sender.js:20-27 | counts, and gives up at the number of addresses |
| InstanceLookup.ParseBrowserResponse | lib/instance-lookup.js:73-95 | the nested loops scan the parts of the response as specified |
| InstanceLookup.SplitJoin | lib/instance-lookup.js:75-78 | splitting undoes joining when no part holds the separator, at its end neither |
| InstanceLookup.PrintedLookup | lib/instance-lookup.js:73-95 | on every printed list of instances the parser is a lookup over their entries, which remembers the last name |
| InstanceLookup.OwnPort | lib/instance-lookup.js:73-95 | for every printed list of instances: which port entry is taken, and that it is the one of the first instance that has it behind its own matching name, if and only if no port entry reached while a name is remembered stands ahead of its own instance's name |
| InstanceLookup.ParseDecimal | lib/instance-lookup.js:83-84 | a port printed in decimal is read back as that number |
| InstanceLookup.ParseIntLaw | lib/instance-lookup.js:83-84 | what `parseInt` makes of white space, a sign, digits, and anything behind them |
| InstanceLookup.BrowserLookup | lib/instance-lookup.js:73-95 | for instances whose name comes before their port, the answer is the port of the first that matches and has one, or nothing |
| InstanceLookup.NamelessInstance | lib/instance-lookup.js:84-91 | an instance without a name is taken for a part of the one before it |
| InstanceLookup.TwoInstances | lib/instance-lookup.js:73-95 | in an answer spelled out for any two names and ports, the port is that of the name asked for |
| BulkLoad.RowTransform.Transform | lib/bulk-load.js:95-130 | a row adds the column metadata if it is the first, and its token up to the first column that refuses its value; it fails if and only if there is one |
| BulkLoad.Stream | lib/bulk-load.js:95-138 | for every sequence of rows: the column metadata once and first if there is a row, a token for each row with its columns in order, and a done token if and only if all rows are valid; else the stream stops in the middle of a token. From the bytes of valid rows any readers of the types get back every validated value in order, null text pointers included, up to the done token |
| BulkLoad.RowRead | lib/bulk-load.js:103-129 | the bytes of one row, from 0xD1 on, are read back as its validated values, with exactly what follows left over |
| BulkLoad.IntLawful | lib/data-types/int.js:21-34 | what is asked of a type's reader holds of 'int', with its length of one byte |
| BulkLoad.ImageLawful | lib/data-types/image.js:30-43 | and of 'image', with its length of four bytes behind the text pointer |
| BulkLoad.DoneToken | lib/bulk-load.js:485-498 | nine bytes or thirteen, according to the version: 0xFD, and nothing but zeros behind it |

## Left out

- MetadataParser.Parser.MetadataParse: reports that the stream is used up, where the code then tries again for ever.
- InstanceLookup.BrowserLookup: compares names by any function in place of `toUpperCase`.
- InstanceLookup.ParseDecimal: numbers are unbounded, where the language rounds those beyond 53 bits.
- Connection.Connection.Connect: does nothing outside the initial state, where the code also throws an error at its caller.
- Sockets, DNS, UDP, TLS and the stream library: events and byte sequences stand for them; `pause` and `resume` of responses are not modelled.
- The constructor's checks of its options, and the initial SQL: long, but each can be read off its own lines.
- Azure credentials, NTLM hashing and the NTLM messages: library calls, and a layout weaker than LOGIN7's.
- Token parsing beyond column metadata, and the code pages of collations.
- The texts of the transaction commands and of the isolation levels: commands and levels stand for them.
- The transactions of TDS 7.2 and later, which are requests of their own without client bookkeeping.
- The column metadata of a bulk load, whose type descriptions come from the data types, and its SQL.
- The retry loop around the browser request, and looking up host names.
