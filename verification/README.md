# iroh-go: a verified model of its boundary, streams and text forms

iroh-go drives a Rust library from Go. Every blocking call is an operation that runs as a
tokio future, posts one completion on a process-wide queue and is met by its Go caller
through a single pump. On top of that sit byte streams with net.Conn deadlines, a
net.Listener, and text forms for addresses and paths that both languages print and parse.
This project models those parts in Dafny and proves what they promise, over every input or
every interleaving.

## How it is organised

| files | what they hold |
|---|---|
| `Common`, `OpTypes`, `PumpTables` | outcomes, statuses, error kinds; the two rendezvous tables |
| `OpProtocol` | the operation protocol as a step relation: spawner, future, supervisor, cancellers, pump, awaiting caller, any number of operations at once |
| `OpInvariant`, `OpSteps` | its inductive invariant and that every step keeps it |
| `OpTheorems`, `OpProgress` | rendezvous, cancellation, refinement to an atomic call, handle conservation, bounded runs, progress |
| `Registry`, `Completions`, `Pump`, `Claims` | the same parts as the objects the code mutates: sharded registry, completion queue, operation cell, pump tables, result claiming |
| `Wakeups` | the queue's lock and condition variable |
| `StreamHalf` | one stream half: concurrent reads or writes, deadline changes, timers, closes, the library's FIFO mutex, over operations that are atomic calls |
| `HalfInvariant`, `HalfSteps` | its inductive invariant and preservation |
| `HalfTheorems`, `HalfRace` | byte conservation, deadlines, closing; the exact guard of RecvStream.Close |
| `Bridge` | the two machines together: the protocol drives the half |
| `Deadlines`, `StreamEvents`, `SendStreams`, `RecvStreams`, `StreamConns` | the Go stream types as classes, one call at a time, with everything that may happen around the call as a list of events |
| `Listener` | accept loop, serve goroutines, Accept calls, Close |
| `Text`, `Numbers` | trimming, splitting, cutting, decimal and hexadecimal, as each language does them |
| `Address`, `GoAddress`, `RustAddress`, `AddressCross` | both address codecs and the two together |
| `Paths` | path records |

Concurrent parts are state machines: a step is one critical section, one atomic operation or
one await point, and a theorem about "every run" quantifies over all finite step sequences
from the initial state. Sequential parts are classes and methods with loops, proved against
the pure functions the theorems are about.

## What is assumed

- A tokio future stops only at an await point; aborting a finished one does nothing.
- The library stream's async mutex is FIFO. A write or read operation that is stopped has
  moved nothing, and one that completes moved what it reports, no more than was asked for
  (`rust/irohgo-ffi/src/stream.rs:3`). Below that the stream is an ordered byte stream, as in
  section 2.2 of RFC 9000.
- The parsers of endpoint ids, socket addresses and relay URLs read what they print
  (`Address.Lawful`); `Address.AssumptionsAreConsistent` gives a codec that meets this.
- Handle and registration counters stay below 2^64.

## Where the code and its documentation differ

- `rust/irohgo-ffi/src/addr.rs:9` shows the id line as z-base-32; the code prints lower-case
  hexadecimal. The model follows the code.
- `RecvStream.Close` is documented as safe with a Read in flight (stream.go:325-332). It
  expires the deadline before it takes the handle, and a SetReadDeadline to a time still to
  come, in between, lets a Read in with a live context; the stop then waits for the peer. The
  exact condition is the deadline in force when it takes the handle: if that has passed, no
  run leaves the stop waiting behind such a Read, and if not, one does, from every such state
  (`HalfRace.TakeGuardIsExact`). Other closes, or deadlines already passed, in between do no
  harm, and `SendStream.Close`, which takes first, always finishes
  (`HalfTheorems.TakenCloseCanLand`).
- `Listener.Accept` is documented to report net.ErrClosed once the listener is closed
  (netconn.go:285-286). If the loop failed on a closed endpoint while the listener was open,
  every Accept reports the endpoint's own error, even after Close; that is exactly when
  (`Listener.WhatAcceptReports`, `Listener.EndpointErrorAfterClose`). Closing the listener
  first is enough to avoid it (`Listener.CloseBeforeEndpoint`).
- The address text form is documented as never dropping information (addr.go:28-31). A custom
  transport with an empty payload does not survive it; `RustAddress.RoundTripIffPayloads` and
  `AddressCross.CrossLanguage` show that this is the only exception.
- The two decoders differ on one kind of text: Go skips blank lines in front of the id
  (addr.go:78), Rust takes the first for the id and refuses it
  (`RustAddress.LeadingBlankIsRefused`). Blank lines anywhere else, and white space around any
  line, make no difference to either (`GoAddress.GoIgnoresSpacing`,
  `RustAddress.RustIgnoresPadding`, `RustAddress.RustIgnoresBlankLines`).
- A path's round-trip time is an int64 of nanoseconds; past (2^63-1)/1000 microseconds it
  wraps, and a line feed in a remote text splits its record (`Paths.RoundTripIff`).

## Model

| member | source | states |
|---|---|---|
| OpTheorems.StepKeeps | rust/irohgo-ffi/src/ops.rs:144-257 | one invariant over spawner, future, supervisor, cancellers, pump and callers is kept by every step |
| OpTheorems.RunKeeps | rust/irohgo-ffi/src/ops.rs:144-257 | so it holds in every state every run reaches |
| OpTheorems.ExactlyOnceRendezvous | internal/ffi/pump.go:63-89 | whichever of deliver and register comes first, the completion of an operation is in exactly one place, the tables are disjoint, the channel carries the posted status, and the pump's send has room |
| OpTheorems.ReceivedIsGone | internal/ffi/pump.go:103-121 | a status that was received is in no queue, table, channel or pump any more |
| OpTheorems.PendingOpsDrains | internal/ffi/pump.go:256-262 | when every caller has its status, PendingOps is 0 and the queue is empty |
| OpTheorems.PendingOpsCounts | internal/ffi/pump.go:256-262 | PendingOps is the number of calls still waiting for their status plus the completions still waiting for their call: no operation twice, none that is over |
| OpTheorems.NoLostCancel | rust/irohgo-ffi/src/ops.rs:182-227 | once spawn has re-checked the flag and no canceller is halfway, a requested cancel has reached the future, in every order |
| OpTheorems.TruthfulStatus | rust/irohgo-ffi/src/ops.rs:161-173 | status OK iff the future returned a value, cancelled iff it was stopped first, and then only after a request |
| OpTheorems.RefinesAtomicCall | internal/ffi/pump.go:91-133 | every step of the protocol is, for every operation, a step of an atomic call: issued, landed once, returned consistently with how it landed |
| OpTheorems.ReturnsTheTruth | internal/ffi/pump.go:97-254 | a finished call returned the value iff the future produced it, and exactly that value; otherwise it returned the kind of the failure, internal for a panic, or its context's error |
| OpTheorems.RefusalIsReturned | rust/irohgo-ffi/src/ops.rs:250-257 | an operation refused before it starts makes its call return the error of the refusal or the context's, whatever happens in between |
| OpTheorems.CancelledIsTheContexts | internal/ffi/pump.go:103-133 | with only the awaiting call cancelling, no call returns a bare cancelled error, and a stopped future means the context's error |
| OpTheorems.StopsAreTheContexts | internal/ffi/pump.go:111-119 | a future is stopped only after its caller saw its context end |
| OpTheorems.OneOwner | rust/irohgo-ffi/src/ops.rs:189-210 | every live handle made by an operation is owned by Go or by that one operation, never both, never neither |
| OpTheorems.OwnedIsLive | rust/irohgo-ffi/src/ops.rs:189-210 | whatever Go or an operation owns is live in the registry, and what an operation owns its own future made |
| OpTheorems.PairsInOrder | rust/irohgo-ffi/src/conn.rs:33-48 | over every run, a call that returns a pair returns first the handle its operation published first, the send half's, and second the one published second, the receive half's |
| OpTheorems.HandleIsItsOwn | rust/irohgo-ffi/src/conn.rs:68-95 | over every run, a call that returns one handle returns the one its own operation published |
| OpTheorems.NothingLeaks | rust/irohgo-ffi/src/lib.rs:161-305 | once every call has returned and every released operation is dropped, the registry holds Go's handles and nothing else |
| OpTheorems.LeakIffMismatched | rust/irohgo-ffi/src/lib.rs:173-265 | claiming a result loses handles exactly for the listed mismatches of result and claim; matched pairs lose none |
| OpTheorems.StaleHandle | rust/irohgo-ffi/src/registry.rs:42-98 | a handle Go was given resolves ever after to its own object or to nothing, however often it is freed |
| OpProgress.StepLowersRank | internal/ffi/pump.go:91-133 | each step of the protocol lowers the rank of exactly one operation |
| OpProgress.RunsAreBounded | internal/ffi/pump.go:91-133 | without new work a run has a bounded number of steps, however it interleaves |
| OpProgress.OnlyPeersBlock | internal/ffi/pump.go:91-133 | the protocol is only ever stuck on an operation whose peer has not answered and that nobody cancelled |
| OpProgress.AnsweredRunsLeaveNothing | rust/irohgo-ffi/src/ops.rs:202-257 | a run that can go no further and waits for no peer has returned every call, drained the tables and left only Go's handles |
| Registry.HandleTable.Reserve | rust/irohgo-ffi/src/registry.rs:46-48 | a fresh id, in no shard |
| Registry.HandleTable.Publish | rust/irohgo-ffi/src/registry.rs:51-57 | updates the one flat map the 16 shards stand for |
| Registry.HandleTable.Insert | rust/irohgo-ffi/src/registry.rs:60-64 | a handle that was not live before, now bound to the value |
| Registry.HandleTable.Get | rust/irohgo-ffi/src/registry.rs:67-85 | a null handle and one of another type are invalid input, one that is not live is closed, and any other gives its object |
| Registry.HandleTable.Remove | rust/irohgo-ffi/src/registry.rs:88-98 | removes the key from the flat map and says whether it was there |
| Registry.HandleTable.Len | rust/irohgo-ffi/src/registry.rs:101-107 | the sum over the shards is the size of the flat map |
| Registry.HandlesAreNeverReused | rust/irohgo-ffi/src/registry.rs:42-98 | over any history of reserve, publish and remove a handle is bound to its own object or to none, and is answered as before or as closed, for every type asked |
| PumpObjects.Pump.Deliver | internal/ffi/pump.go:63-76 | hands the status to the one parked caller or stores it; no other channel changes; the send finds an empty buffer |
| PumpObjects.Pump.Register | internal/ffi/pump.go:78-89 | a fresh channel, already holding the status iff the completion came first |
| PumpObjects.OrderDoesNotMatter | internal/ffi/pump.go:63-89 | deliver and register commute: same tables, same status for the caller |
| Completions.Queue.Wait | rust/irohgo-ffi/src/ops.rs:106-132 | for every sequence of wakes, returns at the first moment there is something to return: the oldest entry, else shutdown, else its timeout; over any use of the queue what was handed out is a prefix of what was pushed |
| Completions.AbortedIffBoth | rust/irohgo-ffi/src/ops.rs:182-227 | over any history of an operation's cell the task is aborted iff both a cancel and the storing of its abort handle happened, in either order |
| Completions.TakenOnce | rust/irohgo-ffi/src/ops.rs:165-199 | over any history the first take after a post returns what was posted, and a later one without a new post an internal error |
| Completions.DropFindsUnclaimed | rust/irohgo-ffi/src/ops.rs:189-210 | over any history what is left to release is the last posted outcome unless it was taken since |
| Completions.Op.StoreAbort | rust/irohgo-ffi/src/ops.rs:222-227 | a cancel that came before the handle was stored still aborts |
| Completions.Op.Drop | rust/irohgo-ffi/src/ops.rs:202-210 | removes from the registry exactly the handles of an unclaimed value |
| Claims.Library.Take | rust/irohgo-ffi/src/lib.rs:169-171 | the outcome or the reason there is none, and the slot is empty afterwards |
| Claims.Library.StoreErr | rust/irohgo-ffi/src/ffi.rs:48-54 | one new error object under a handle that was not live |
| Claims.Library.OpResult | rust/irohgo-ffi/src/lib.rs:173-265 | the value crosses if it has the asked shape; otherwise exactly one error object with the right kind is published |
| Claims.Library.OpResultErr | rust/irohgo-ffi/src/lib.rs:267-276 | publishes the stored error, or nothing when there is a value |
| Claims.Library.TakeError | internal/ffi/errors.go:19-31 | reads the kind and consumes the handle; zero or foreign handles read as internal |
| Claims.Library.OpFree | rust/irohgo-ffi/src/lib.rs:161-167 | removes the operation's handle and no other |
| Claims.Library.FinishFailed | internal/ffi/pump.go:123-133 | the stored failure is returned, its error object consumed and the operation freed |
| Claims.Library.FinishValue | internal/ffi/pump.go:148-254 | the claimed value or the refusal is returned; the operation and any error object are gone |
| Claims.Library.Finish | internal/ffi/pump.go:123-254 | for every await kind, status and slot: the operation is gone, no error object stays, no other handle is touched; with a true status the call returns exactly what the operation produced, value or kind of failure; every other status, shape, dead, foreign or emptied handle has its stated answer |
| Wakeups.SysInvHolds | rust/irohgo-ffi/src/ops.rs:86-142 | the invariant of lock, flag, queue, waiter and owed notifications holds over every run |
| Wakeups.NoLostWakeup | rust/irohgo-ffi/src/ops.rs:86-142 | asleep over a non-empty queue a notify is still owed; asleep over a set shutdown flag the lock holder's notify is still to come |
| Wakeups.FirstInFirstOut | rust/irohgo-ffi/src/ops.rs:86-132 | what came out plus what is queued is what went in, in order |
| Wakeups.ShutdownComesLast | rust/irohgo-ffi/src/ops.rs:109-142 | shutdown is reported only if requested and after everything pushed was handed out |
| HalfSteps.StepKeeps | stream.go:36-339 | one invariant over calls, contexts, deadline sets, mutexes, bytes and closes is kept by every step |
| HalfSteps.RunKeeps | stream.go:36-339 | so it holds in every state every run reaches |
| HalfTheorems.WriteConserves | stream.go:125-171 | at all times the stream has taken from a call exactly what was reported plus what is in flight, a prefix of its argument; on return what is reported is what was taken, and nil means all |
| HalfTheorems.SoleCallOwnsLog | stream.go:100-104 | with one writer the call's bytes are the whole stream |
| HalfTheorems.ReadConserves | stream.go:263-305 | the bytes given up are a prefix of what the peer sent, each chunk belongs to one call of its own, and a returned call reported exactly its chunk |
| HalfTheorems.TimeoutConsumesNothing | stream.go:258-279 | no call reports a bare context error, and a Read that times out consumed nothing |
| HalfTheorems.NoMissedDeadline | stream.go:36-81 | each registered call was armed under the current deadline, or its context is done, or a set in progress still holds its cancel, and so for every set since; it has timed out only if its deadline has passed, and once that has passed it has ended or its timer can fire |
| HalfTheorems.ArmsUnderDeadline | stream.go:54-81 | a call arms under the deadline in force, and its context has ended from the start iff that deadline has passed |
| HalfTheorems.OnlySetsMoveDeadline | stream.go:36-49 | the deadline in force is the last one set, by a caller or by a close, which sets a passed one |
| HalfTheorems.ResumesAreBounded | stream.go:125-142 | a call goes round its loop at most once per set whose snapshot held one of its registrations |
| HalfTheorems.OperationsAreBounded | stream.go:125-171 | a call issues at most one operation per byte it moves, one per set that saw it, and one more |
| HalfTheorems.OneTerminalOperation | handle.go:26-29 | of all closes, resets and stops on a half only one ever issues its operation, and at most one lands |
| HalfTheorems.HandleHoldersAreDone | stream.go:226-239 | once a safe close has issued its operation every call holding the handle has a finished context |
| HalfTheorems.CloseMakesProgress | stream.go:231-239 | whatever heads the stream's queue before a safe close can be stopped at once, which brings the close strictly nearer |
| HalfTheorems.CloseNeverMovesBack | stream.go:231-239 | no step of anyone else moves a queued close further back |
| HalfTheorems.CloseIsServedInTurn | stream.go:231-239 | over any run a queued close waits for at most as many served operations as were ahead of it, whatever calls, deadline changes and closes happen meanwhile |
| HalfTheorems.SafeCloseCanLand | stream.go:217-239 | a safe close that is queued can land by stopping each operation ahead of it once |
| HalfTheorems.TakenCloseCanLand | stream.go:217-239 | from every state in which a close holds the taken handle, under a deadline that had passed or one it is about to expire, it can finish within a stated number of steps of its own, owed cancels, due timers and library stops |
| HalfRace.NeverStuck | stream.go:333-336 | from the take under a passed deadline on, no run leaves the close queued behind a call whose context is live with no cancel owed and no timer due |
| HalfRace.LiveTakeCanStick | stream.go:333-336 | from every state in which a close is about to take the handle under a live deadline, with no call inside, some run leaves it so |
| HalfRace.TakeGuardIsExact | stream.go:325-336 | the two together: the close can be left waiting iff the deadline in force at the take has not passed |
| HalfRace.RecvCloseCanWaitForThePeer | stream.go:333-336 | one Close, one SetReadDeadline and one Read from the start are enough |
| HalfTheorems.OwnTimeoutIsClosed | netconn.go:117-133 | a timeout that a StreamConn close caused is returned as net.ErrClosed |
| HalfTheorems.ReleaseReports | stream.go:125-142 | over every run, what a call returns as it leaves: it goes round again iff a deadline change interrupted it, times out only once the deadline of its round has passed, and through a closed connection a timeout and a closed handle read as net.ErrClosed while every other failure keeps its kind |
| HalfTheorems.ReturnReports | stream.go:151-171 | what the operation returned is passed on: its kind of failure, the context's error, or a value with the bytes it moved; a write of nothing is an error |
| HalfTheorems.ClosedStaysClosed | handle.go:19-29 | over every run, after a close has taken the handle each call that asks for it leaves as closed, and before that none does |
| HalfTheorems.EndIsTheEnd | stream.go:286-305 | over every run, a Read reports the end only when everything the peer sent has been read |
| HalfTheorems.WinnerFreesLast | stream.go:231-239 | over every run, the stream is freed iff the close that took the handle is over, never before its terminal operation has landed or been given up |
| HalfTheorems.ConnClosedByItsClose | netconn.go:149-171 | over every run, a connection counts as closed only if its own Close or Reset was called |
| Bridge.LinkedAtIssue | internal/ffi/calls.go:438-442 | a stream call that issues its operation is linked to the operation the library reserves |
| Bridge.ProtocolDrivesHalf | internal/ffi/pump.go:91-133 | in any joint run of the operation protocol and a stream half, every landing, stop and return of the linked call is a protocol step, and everything the half does is a legal run of its own machine |
| Deadlines.DeadlineCell.Set | stream.go:36-49 | stores the deadline and ends every armed context, keeping an earlier cause |
| Deadlines.DeadlineCell.Arm | stream.go:54-81 | a fresh context under the current deadline, registered under a new id, that has ended iff that deadline has passed |
| Deadlines.DeadlineCell.Release | stream.go:75-80 | unregisters that id alone and ends its context |
| Deadlines.OneTaker | handle.go:19-29 | over any history of gets and takes the id is there for every call up to the first take, and for none after it |
| StreamEvents.AwaitAnswer | internal/ffi/pump.go:103-121 | an outstanding operation ends at the first event that answers it: a landing, the end, a failure, or a stop once its context has ended, which is at the first deadline change or when its deadline has passed, and not before |
| StreamEvents.MovedIsLeast | stream.go:151-171 | however the landings are cut up, a call moves all that is asked for or all that is offered, whichever is less |
| SendStreams.SendStream.SendWrite | internal/ffi/calls.go:438-442 | count, error and accepted bytes are those of the answering event; an error means none were accepted |
| SendStreams.SendStream.WriteContext | stream.go:151-171 | the count is what the landings among the events moved; no error means all of it; any other return is what the last event says, or closed if the handle is gone; no event that ends it is overlooked |
| SendStreams.SendStream.Write | stream.go:125-142 | for all events around it: the log grew by exactly the reported prefix, which is what the landings moved; nil means all; a failure is the one of the last event; a timeout only after the deadline its last round began under has passed; closed iff the handle was gone then; rounds bounded by deadline changes; registrations released |
| SendStreams.SendStream.Close | stream.go:231-239 | only the taker acts; it ends every armed context, finishes at most once and frees |
| SendStreams.SendStream.Reset | stream.go:208-215 | only the taker acts |
| RecvStreams.RecvStream.RecvRead | internal/ffi/calls.go:462-469 | the bytes given up are the bytes stored in the buffer, as many as the answering event offers; a failed or abandoned read gives up none |
| RecvStreams.RecvStream.ReadContext | stream.go:286-305 | the same, with the end reported only at the end |
| RecvStreams.RecvStream.Read | stream.go:263-279 | for all events around it: the buffer's front is exactly the bytes given up, as many as the landing it ended on, its rest unchanged; any error consumed nothing; a failure is the one of the last event; a timeout only after the deadline its last round began under has passed; closed iff the handle was gone then; rounds bounded; registrations released |
| RecvStreams.RecvStream.Stop | stream.go:316-323 | only the taker acts |
| RecvStreams.RecvStream.Close | stream.go:333-336 | ends every armed context whoever takes the handle, then stops |
| StreamConns.StreamConn.Close | netconn.go:149-155 | the first close or reset ends both halves once each; every later one changes nothing and returns the first one's error |
| StreamConns.StreamConn.Reset | netconn.go:161-171 | the same, with both deadlines expired first |
| StreamConns.StreamConn.CloseWrite | netconn.go:140-142 | ends the send half, once, and leaves the other alone |
| StreamConns.StreamConn.Write | netconn.go:112-133 | conserves bytes; on a closed connection a timeout and a closed handle read as net.ErrClosed, and every other failure keeps its kind, closed or not |
| StreamConns.StreamConn.Read | netconn.go:106-133 | the same for reads, and the end of the stream comes through as it is |
| Listener.StepKeeps | netconn.go:214-327 | one invariant over the loop, the serve goroutines, the streams and the Accept calls is kept by every step |
| Listener.DeliveredOrClosed | netconn.go:264-294 | each stream serve obtained is in its hand, closed, or with exactly one Accept, never two of these |
| Listener.OnlyAuthorisedStreams | netconn.go:264-270 | nobody receives a stream of a refused peer |
| Listener.AuthorisedFirst | netconn.go:264-282 | over every run, a stream that Accept returns comes from a connection whose peer was authorised earlier in the run |
| Listener.RefusedForGood | netconn.go:265-270 | a refused connection is never served later either |
| Listener.ServingGoesOn | netconn.go:264-282 | over every run, a connection is served, through any number of hand-overs, until its peer is refused, its accept fails or a stream is given up after close; once authorised it is accepting streams or offering one |
| Listener.HandOver | netconn.go:271-282 | a hand-over gives Accept the stream on offer and sends the goroutine back to accepting, and touches nothing else |
| Listener.LoopOutlivesPeers | netconn.go:244-262 | the loop ends only if the listener or the endpoint was closed; a peer's failure sends it round again |
| Listener.LoopWindsDown | netconn.go:244-262 | an accept that fails for good makes the loop record an error, close the listener and end; any other failure sends it back to accepting |
| Listener.RecordedIffFailsOpen | netconn.go:254-257 | the endpoint's error is recorded iff the loop fails on the closed endpoint while the listener is open |
| Listener.WhatAcceptReports | netconn.go:287-327 | over any run an Accept is told the endpoint's error iff the loop failed open, and net.ErrClosed iff it did not |
| Listener.ClosedFirstStaysClosed | netconn.go:296-318 | once the listener is closed and nothing else is recorded, nothing else ever will be |
| Listener.CloseBeforeEndpoint | netconn.go:285-294 | with Close before the endpoint's closing every Accept reports net.ErrClosed |
| Listener.EndpointErrorAfterClose | netconn.go:285-294 | a run in which an Accept after Close reports the endpoint's error |
| Listener.RecordedForGood | netconn.go:306-318 | the recorded error never changes |
| Listener.NothingStranded | netconn.go:271-294 | after close, at rest, every stream was received or closed and every Accept returned |
| Numbers.UnhexHex | rust/irohgo-ffi/src/addr.rs:96-115 | unhex(hex(b)) == b for every byte sequence |
| Numbers.HexUnhex | rust/irohgo-ffi/src/addr.rs:96-115 | hex(unhex(s)) == s iff s is lower-case hexadecimal |
| Numbers.DigitsAreThese | rust/irohgo-ffi/src/addr.rs:96-115 | the sixteen digits, printed in lower case and read in either, and nothing else |
| Numbers.HexDigits | rust/irohgo-ffi/src/addr.rs:96-102 | two digits per byte, in the order of the bytes, the high half first |
| Numbers.CaseDoesNotMatter | rust/irohgo-ffi/src/addr.rs:104-115 | texts that differ only in the case of their digits decode alike |
| Numbers.EncodeHex | rust/irohgo-ffi/src/addr.rs:96-102 | the loop computes the specified text |
| Numbers.DecimalUnsigned | rust/irohgo-ffi/src/addr.rs:82-84 | a printed number parses back iff it is below the limit |
| Numbers.DecimalInt64 | conn.go:253-256 | a printed number parses as an int64 iff it fits one |
| Numbers.SignedDecimal | conn.go:253-256 | a sign in front: the unsigned parser takes a plus and no minus, the signed one both, down to the one number without a positive twin |
| Numbers.LeadingDigit | rust/irohgo-ffi/src/addr.rs:82-84 | digits are read with the most significant first |
| Address.AssumptionsAreConsistent | rust/irohgo-ffi/src/addr.rs:57-77 | some codec meets everything assumed of the library parsers |
| Text.TrimTakesSpacesOnly | addr.go:78 | trimming takes white space from the two ends and nothing else, and leaves nothing exactly of a blank text |
| Text.SpacesAreThese | addr.go:88 | white space is these twenty-five characters |
| Text.WordsOfTrim | addr.go:78-91 | trimming the whole text first changes neither which lines are not blank nor what they say |
| Text.WordsOfLines | rust/irohgo-ffi/src/addr.rs:52-69 | lines cut the Rust way show the same first line and the same words as a split at line feeds |
| GoAddress.Encode | addr.go:59-75 | the builder's loops produce the joined lines |
| GoAddress.Decode | addr.go:77-112 | the loop returns what the fold over the trimmed lines returns, errors included; `GoAddress.GoReads` says what that is |
| GoAddress.GoReads | addr.go:77-112 | every text at all: empty, a bad key, a line that cannot be read, or the address whose id, first relay, direct addresses and other lines are those of its non-blank lines, in order; no line that is not blank is passed over |
| GoAddress.GoIgnoresSpacing | addr.go:78-91 | white space around any line and blank lines anywhere make no difference |
| GoAddress.EncodedInOrder | addr.go:59-75 | the text of a normal address is its id, its relay, its direct addresses and the lines kept verbatim, in that order |
| GoAddress.DecodedIsNormal | addr.go:77-112 | every accepted text gives a normal address |
| GoAddress.RoundTripIffNormal | addr.go:59-112 | decode(encode(a)) == a iff a is normal, a field-by-field check |
| GoAddress.StableNormalForm | addr.go:59-112 | decoding the re-encoding of any accepted text gives the identical address |
| GoAddress.ReencodingPermutes | addr.go:28-31 | re-encoding permutes the transport lines, up to the spelling of socket addresses: none lost, invented or altered |
| RustAddress.Encode | rust/irohgo-ffi/src/addr.rs:25-50 | the loop produces the joined lines |
| RustAddress.Decode | rust/irohgo-ffi/src/addr.rs:52-94 | the loop returns what the fold over the lines returns, errors included; `RustAddress.RustReads` says what that is |
| RustAddress.LineReads | rust/irohgo-ffi/src/addr.rs:70-91 | a line is read as a transport iff it is that transport's kind, a space and what the kind's parser takes; any other line is refused, with the relay kind iff it begins as a relay |
| RustAddress.RustReads | rust/irohgo-ffi/src/addr.rs:52-94 | every text at all: empty, a bad key on the first line, the error of the first line that says nothing, or the id and exactly the transports its other non-blank lines say |
| RustAddress.RustIgnoresPadding | rust/irohgo-ffi/src/addr.rs:57-69 | white space around any line makes no difference |
| RustAddress.RustIgnoresBlankLines | rust/irohgo-ffi/src/addr.rs:65-69 | nor do blank lines behind the first line |
| RustAddress.LeadingBlankIsRefused | rust/irohgo-ffi/src/addr.rs:53-61 | a blank line in front of the id is taken for it and refused |
| RustAddress.DecodedIsValid | rust/irohgo-ffi/src/addr.rs:52-94 | every accepted text gives a valid address without empty payloads |
| RustAddress.RoundTripIffPayloads | rust/irohgo-ffi/src/addr.rs:25-94 | decode_addr(encode_addr(a)) == a iff no custom payload is empty |
| AddressCross.GoReadsRust | addr.go:77-112 | Go accepts every Rust address without empty payloads, as a normal address with the same id and lines |
| AddressCross.CrossLanguage | addr.go:28-31 | Rust to Go to Rust keeps the id and the set of transports iff no custom payload is empty |
| AddressCross.ValidateNormalises | addr.go:114-123 | Validate fails only where Rust's parser does and with its error, preserves the address Rust reads, and is idempotent, for every address |
| Paths.ReadPaths | conn.go:233-264 | the loop returns what the fold over the lines returns, errors included |
| Paths.RecordReads | conn.go:246-261 | any line at all: four fields cut at the first three tabs, a flag that is set iff it is 1, a time in microseconds that parses, or an internal error |
| Paths.LinesRead | conn.go:244-264 | the list is accepted iff every line is, and then in order |
| Paths.PrintedRecord | rust/irohgo-ffi/src/conn.rs:229-246 | the four fields of a record as they stand in the text |
| Paths.PathBack | conn.go:249-261 | a record's own line parses back exactly iff its time fits; otherwise the time is off by a multiple of 2^64 or does not parse; kind, flag and remote text come back in any case |
| Paths.RoundTripIff | rust/irohgo-ffi/src/conn.rs:223-256 | the printed list parses to the same records iff no remote text has a line feed and every time fits |

## Left out

- Operation id 0 and `ffi_guard` panics inside the library entry points (internal/ffi/pump.go:104-106): not reachable while the id counter and the entry points behave.
- Waits with a timeout in the condition-variable machine: the pump waits for ever; `Completions.Queue.Wait` covers the timeout branch.
- Error messages: only kinds are modelled. A custom payload with non-ASCII text makes the library panic or fail depending on byte boundaries; both are one failure here.
- Byte buffers handed over by pointer (`takeBytes`, `iroh_free_bytes`): values here.
- Garbage collection: a cleanup is an extra free, which `OpTheorems.StaleHandle` allows at any time; when it happens is not modelled.
- `iroh_op_cancel` by anyone but the awaiting call is allowed in `OpProtocol`, although no Go code does it; `OpTheorems.CancelledIsTheContexts` has the stronger result without it, and `StreamHalf.ReturnEnabled` relies on that.
- Calls made under a caller's own context (`WriteContext`, `ReadContext`, `Stopped`, `SetPriority`) as users of the stream's mutex: a close waits behind them, as documented.
- HalfTheorems.CloseMakesProgress: does not cover `Reset` and `Stop` called directly on a half, which expire no deadline and wait behind whatever holds the stream.
- SendStreams.SendStream.Write: one call at a time, so `writeMu` is not in the class; `StreamHalf` has it, with any number of calls.
- SendStreams.SendStream.WriteContext: one call at a time, for the same reason.
- SendStreams.SendStream.Close: whether the finish lands, and what it reports, is its parameter; `HalfTheorems.TakenCloseCanLand` and `HalfTheorems.OneTerminalOperation` say when it lands and how often.
- SendStreams.SendStream.Reset: whether the reset lands, and what it reports, is its parameter.
- RecvStreams.RecvStream.Read: one call at a time, so `readMu` is not in the class; `StreamHalf` has it, with any number of calls.
- RecvStreams.RecvStream.ReadContext: one call at a time, for the same reason.
- RecvStreams.RecvStream.Stop: whether the stop lands, and what it reports, is its parameter.
- RecvStreams.RecvStream.Close: the same; `HalfRace.TakeGuardIsExact` says when it can wait.
- StreamConns.StreamConn.Write: another goroutine's Close is a flag that takes effect when the inner write ends; `HalfTheorems.OwnTimeoutIsClosed` has the interleaving. "Every interrupted call returns net.ErrClosed" is not claimed: a call that reaches a finished stream reports a stream error.
- StreamConns.StreamConn.Read: the same for reads.
- HalfRace.TakeGuardIsExact: the direction that exhibits a stuck close starts with no call inside the stream's Go mutex.
- Bridge.ProtocolDrivesHalf: one operation at a time; how the library stream answers is a condition on the surroundings, as under "What is assumed".
- `Endpoint.Accept` has two await points, so a cancelled accept may drop a peer mid-handshake; no conservation of incoming connections is claimed.
- A stream that `AcceptBi` returned and whose connection then has no remote id is left to the garbage collector by `streamConn` (netconn.go:91-95); `Listener` counts only streams `AcceptConn` returned.
- `EndpointAddr` values a caller builds by hand with text that is no address: `GoAddress.RoundTripIffNormal` says exactly which survive.
- Unknown future transport variants, which `encode_addr` drops (addr.rs:43-46).
- Keys, signatures, tickets, endpoint options, statistics, datagrams, library loading and the binding table: thin wrappers or packaging.
