# Thwip, modelled and proved

Thwip is an HTTP/1.x server and reverse proxy. A master process restarts its workers; each worker is one event loop over
plaintext or TLS connections, on io_uring where the kernel has it and on epoll or kqueue otherwise. A connection carries
one request: it is answered by a configured text, by a file, or by an upstream whose response is relayed.

This project models that behaviour in Dafny, for plaintext connections, and proves what it keeps over every run and
against every kernel.

- `Http`, `Upstream`, `Server`: the incremental request parser and body framing (section 6.3 of RFC 9112), the printer of
  the upstream request with its hop-by-hop filter (section 7.6.1 of RFC 9110), the server's own notices, and what follows
  end to end: how a client's bytes are cut into reads does not matter, and what the upstream reads is what was meant.
- `Grammar`, `Forwarding`: the same parser and printer characterised from outside: exactly what is accepted, and exactly
  what an upstream reads.
- `Exchange`: one connection of the io_uring worker as a protocol, with the theorems about whole runs. `Outcomes` says
  exactly how an exchange ends and what is answered, `Undisturbed` that one which nothing disturbs runs to its end.
- `UringState`, `UringProgress`, `UringWorker`, `UringTurns`, `UringControls`, `UringLoop`, `UringLate`, `BufferRing`: the
  io_uring worker itself, as a class over its slab, flags, generations and buffer ring. Each handler is proved to make
  exactly one protocol step of the connection it is for. The kernel is a script: it completes any operation in flight,
  once, at any time and with any result; what it cannot do does not occur.
- `Readiness`, `ReadinessTable`, `ReadinessWorker`: the epoll and kqueue worker, with its bounded loops, its three queues
  of unfinished work and draining, against every result of every system call; with `ReadinessOutcomes`,
  `ReadinessUndisturbed` and `ReadinessEffects`, which say for it what `Outcomes`, `Undisturbed` and `UringControls` say
  for the other.
- `Identifiers`: generations, operation identifiers and poll tokens.
- `Balancer`, `Fairness`: weighted selection of upstreams, and what it comes to for a configuration.
- `StaticFiles`, `FileHeads`: byte ranges (section 14.1.2 of RFC 9110), streamed files, and what a client reads in the
  head of one.
- `Inputs`: for the properties that fail, bytes that show it.
- `Shutdown`, `Supervisor`: the handshake between a shutdown request and a starting worker; the master's restarts.

`dafny verify dfyconfig.toml` checks all of it.

Classes stand where the source has objects that change: the two workers, the listeners and shutdown fields, the buffer
ring, the balancer, the shutdown handle, the master. Their methods are proved against functions and predicates on plain
states, and the theorems are about those. Ghost state carries what the program does not keep: the protocol state of each
connection with a log of everything sent and received, how often each slot has been occupied, for which occupation a
socket, an operation or a lookup was issued, and why connections left.

## Findings

Properties that the code does not have, each with the condition under which it does:

- A request head that ends within the last three bytes of the 16384-byte limit is accepted when it arrives in one read and
  can be refused when it does not, because the size is compared once with all buffered bytes and once with the head alone
  (`run/slave/src/http.rs:112` and `run/slave/src/http.rs:120`). `Http.FragmentationIndependence` is the exact condition,
  `Http.BoundarySplit` gives the reads, `Inputs.BoundaryHead` a head.
- A client that names `content-length` in its `Connection` header has the length of its body stripped on the way to the
  upstream, which is then told of no body (`run/slave/src/proxy.rs:71-107`). `Upstream.ForwardedFraming`
  is the exact condition, `Inputs.LostContentLength` the bytes of a request.
- In the readiness worker a relayed response can be left with unsent bytes and nothing that comes back to it: after
  sixteen writes in one go a connection is queued again only if it writes a response of the server's own
  (`run/slave/src/runtime/readiness/worker.rs:981-988`). `Readiness.WhenTheClientIsForgotten` is the exact condition,
  `Readiness.ForgottenClient` a run from a new connection.
- In the readiness worker a client that uploads is forgotten if it has sent more than sixteen reads of 8192 bytes take,
  the read limit allows that much, and its request is not complete by then: the loop over the reads ends with bytes left
  in the socket, no edge announces them again, and no queue holds the connection
  (`run/slave/src/runtime/readiness/worker.rs:383-488`). Unless more arrives, the idle timeout drops it.
  `Readiness.WhenTheReaderIsForgotten` is the exact condition, `Readiness.SmallLimitsForgetNobody` says which limits
  exclude it, `Inputs.ForgottenUploader` is an upload.
- In the readiness worker a file whose head is longer than the write limit is answered with the notice that says so,
  followed by the contents of the file, because the stream is kept when its head gives way
  (`run/slave/src/runtime/readiness/worker.rs:1109-1118`). `ReadinessOutcomes.AnswersOnRead` is the exact condition,
  `ReadinessUndisturbed.HeadGivesWay` the run.
- In the readiness worker a client that goes on sending while its file response waits for a chunk is read, and once that
  exceeds the read limit the refusal replaces what is being written, and the file then goes on behind it
  (`run/slave/src/runtime/readiness/worker.rs:1160-1166`). `ReadinessOutcomes.DisplacedExactly` is the exact condition,
  `ReadinessUndisturbed.RefusalGetsIn` the run; `ReadinessTable.EveryDeparture` says what holds otherwise.
- Two different inline pools can share a cursor, because their key joins URLs and weights without escaping
  (`run/slave/src/load_balancer.rs:103-112`). `Balancer.WhenKeysCollide` says exactly which pools can be affected: those of
  two endpoints or more, and single URLs of the form `x#n|y`. Between pools without such URLs it does not happen
  (`Balancer.KeysAreDistinct`). `Balancer.BarsCollide` gives two valid pools.
- A name that is answered a multiple of 65535 occupations of its slot late is taken by a connection that never asked for
  it. `UringProgress.WantedExactly` is the exact condition, `UringLate.LateAnswer` a run that ends so.
- A send longer than 2^32 - 1 bytes ends the io_uring worker. `UringLoop.EventLoop.Turn` says exactly when a completion
  does, `Inputs.SendTooLong` gives one, and `UringLoop.EventLoop.Run` that none does if limits, notices and file pieces
  fit 32 bits.
- While an io_uring worker drains, a connection that waits for a name is no longer told it once a read of names has come
  back: it leaves only by the timer (`run/slave/src/runtime/io_uring/worker.rs:756-763`).
  `UringTurns.OnlyTheTimerIsLeft`.
- A byte range may be written with a plus sign, as the standard number parser takes one; `StaticFiles.NumberExactly`.

## Model

| member | source | states |
|---|---|---|
| Exchange.OneResponse | run/slave/src/runtime/io_uring/worker.rs:298-386 | over every run of a connection, once a response source has started it stays the only one; the client has a prefix of it at any time and all of it when the exchange finishes |
| Exchange.NoLocalResponseAfterUpstream | run/slave/src/runtime/io_uring/worker.rs:1014-1051 | over every run, after the first upstream byte taken over no response of the server itself is ever queued |
| Exchange.RelayConservation | run/slave/src/runtime/io_uring/worker.rs:947-1004 | in every reachable state, whatever the sizes of reads and writes: upstream bytes received are client bytes sent plus the unsent rest of one chunk no longer than the write limit, and the newest upstream socket has exactly the sent front of the request |
| Exchange.UpstreamEnd | run/slave/src/runtime/io_uring/worker.rs:991-995 | the end of the upstream response closes the client normally only when everything received has been sent |
| Exchange.RequestSentOnce | run/slave/src/runtime/io_uring/worker.rs:909-945 | over every run, a socket that has got part of the request stays the last one opened and gets exactly the following bytes: never two sockets, never a byte twice |
| Exchange.AddressesInOrder | run/slave/src/runtime/io_uring/worker.rs:798-823 | over every run the resolver's addresses are used up from the front, each at most once, and the one being connected to is the last used up |
| Exchange.RunExtends | run/slave/src/runtime/io_uring/connection.rs:38-93 | between any two moments of a run phases only move forward, and nothing sent, received, tried or put on the wire is taken back |
| Exchange.TimedOutStops | run/slave/src/runtime/io_uring/worker.rs:1077-1133 | after the timeout mark nothing goes in either direction; the completion that was pending ends the exchange, or turns it into the phase's 504 if the client has nothing yet |
| Exchange.ChunkRelayed | run/slave/src/runtime/io_uring/worker.rs:996-1003 | a received chunk is passed on if and only if the phase has not timed out and the chunk fits the write limit |
| Exchange.StepIsSafe | run/slave/src/runtime/io_uring/worker.rs:166-193 | every event, possible or not in the stage, keeps the invariant of one connection: one source conserved, wire and addresses in order, something to send while sending |
| Outcomes.EndsExactly | run/slave/src/runtime/io_uring/worker.rs:298-1051 | over every run: a client is dropped if and only if one of the listed failures has happened, and is served to the end if and only if the last byte of its response has been accepted and there is no more, or the upstream has ended it |
| Outcomes.ResponsesExactly | run/slave/src/runtime/io_uring/worker.rs:482-1051 | over every run: exactly which events make the server answer by itself, with which notice, text or file, and when an upstream's response begins |
| Outcomes.LateExactly | run/slave/src/runtime/io_uring/worker.rs:1077-1133 | over every run: a timeout marks exactly the connections that connect, send or read, ends the waiting for a name, and its mark goes with the pending completion |
| Outcomes.EveryByteCounts | run/slave/src/runtime/io_uring/worker.rs:298-1004 | over every run: all that the upstream delivers in time is taken over, the client has exactly as many bytes as its socket accepted, the upstream exactly as many of the request |
| Undisturbed.WholeReply | run/slave/src/runtime/io_uring/worker.rs:298-386 | a reply of the server's own, however its sends are cut and interrupted, is sent to its end |
| Undisturbed.ReplyingOwes | run/slave/src/runtime/io_uring/worker.rs:1014-1031 | every connection that replies owes its one reply, so that this is about all of them |
| Undisturbed.WholeFile | run/slave/src/runtime/io_uring/worker.rs:1162-1217 | a file response, however its sends are cut and however long each chunk lets wait, reaches the client whole: head and every chunk |
| Undisturbed.WholeRelay | run/slave/src/runtime/io_uring/worker.rs:298-386 | a relay of any chunks within the write limit, reads and sends cut and interrupted at will, goes on to the upstream's end: the client has every byte in order |
| Undisturbed.WholeProxy | run/slave/src/runtime/io_uring/worker.rs:714-1004 | from the read that completes a request to the end of its response: addresses that fail are passed over, the request is sent whole to one socket, the client has the whole response |
| UringState.EveryConnectionIsAwaited | run/slave/src/runtime/io_uring/worker.rs:243-1051 | one wake-up: in every consistent state a live connection has exactly one operation in flight, or its lookup is outstanding, or it is a file response with nothing left to send; the pending flags and the proxy phase say which |
| UringState.InFlightMemoryIsHeld | run/slave/src/runtime/io_uring/worker.rs:243-296 | the buffer and offset, or the address, of each operation in flight are those of the live connection that issued it, unchanged |
| UringState.MovingIsConsistent | run/slave/src/runtime/io_uring/worker.rs:425-452 | a handler that stores the record of the next stage and submits exactly its operation, or removes the connection, restores the invariant of the whole worker |
| UringState.FlaggingIsConsistent | run/slave/src/runtime/io_uring/worker.rs:1112-1132 | marking an upstream operation as too late leaves it in flight and keeps the invariant |
| UringState.LookupNamesItsOccupation | run/slave/src/runtime/io_uring/worker.rs:766-779 | a name accepted for a connection was asked for by that occupation of the slot, unless the slot was taken over at least 65535 times since |
| UringProgress.CompletionIsFresh | run/slave/src/runtime/io_uring/worker.rs:166-193 | a completion is never stale: the occupation that issued it still holds the slot, in the stage that waits for this kind of operation |
| UringProgress.WantedIsAnswered | run/slave/src/runtime/io_uring/worker.rs:766-796 | the answer to a waiting connection is one protocol step of it, for the occupation that asked within 65534 occupations |
| UringProgress.WantedExactly | run/slave/src/runtime/io_uring/connection.rs:191-198 | an answer is taken by a connection waiting for a name if and only if the slot has been taken over a multiple of 65535 times since the question |
| UringLate.LateAnswer | run/slave/src/runtime/io_uring/worker.rs:766-779 | the bound is met: a run of the worker, turn by turn, in which the first connection of a slot asks for a name and gives up, 65534 others come and go, and the next one takes the answer to the first |
| UringLate.LateRun | run/slave/src/runtime/io_uring/worker.rs:388-423 | the run up to that answer |
| UringProgress.ProgressTransitive | run/slave/src/runtime/io_uring/worker.rs:388-423 | over stretches of a run a slot is only ever taken over by later occupations and connections that stay have gone forward |
| UringProgress.RetainedIsSound | run/slave/src/runtime/io_uring/worker.rs:388-423 | a kept connection is a new occupation of a vacant slot waiting for its first receive; all others stay as they are |
| UringProgress.SweepAdvances | run/slave/src/runtime/io_uring/worker.rs:1077-1191 | a sweep step changes only its connection; each picked connection takes its step once, from the state it had when the sweep began |
| UringProgress.FillingAfterDispatch | run/slave/src/runtime/io_uring/worker.rs:460-480 | the lent receive buffers stay exactly those of completed, unhandled receives when one is handled |
| UringProgress.StuckFromStart | run/slave/src/runtime/io_uring/worker.rs:1077-1191 | a sweep fails only if some connection could already not take its step when the sweep began |
| UringWorker.IoUringWorker.SubmitSend | run/slave/src/runtime/io_uring/worker.rs:243-296 | nothing for a stale identifier, a pending send or an empty rest; an error exactly for a rest longer than 32 bits can say; otherwise exactly the unsent rest is in flight |
| UringWorker.IoUringWorker.SubmitRecv | run/slave/src/runtime/io_uring/worker.rs:425-452 | a receive is in flight for the connection unless one already is or the identifier is stale; an error exactly for a vacant slot |
| UringWorker.IoUringWorker.SubmitProxyWrite | run/slave/src/runtime/io_uring/worker.rs:846-866 | exactly the unsent rest of the request is in flight; an error exactly when it is longer than 32 bits can say |
| UringWorker.IoUringWorker.HandleWriteCompletion | run/slave/src/runtime/io_uring/worker.rs:298-386 | a stale completion does nothing; otherwise the connection makes the protocol's step, its record encodes the new stage and exactly that stage's operation is submitted; fails exactly if it cannot be submitted |
| UringWorker.IoUringWorker.OutputDrained | run/slave/src/runtime/io_uring/worker.rs:349-380 | once all output is sent: the next file chunk, the next upstream read, or the end |
| UringWorker.IoUringWorker.AdvanceStaticStream | run/slave/src/runtime/io_uring/worker.rs:1193-1217 | the next chunk is queued, or the connection waits for one, or it ends, complete or not |
| UringWorker.IoUringWorker.HandleReceived | run/slave/src/runtime/io_uring/worker.rs:482-624 | received bytes advance the request by the protocol's step; nothing for a stale identifier |
| UringWorker.IoUringWorker.PrepareResponse | run/slave/src/runtime/io_uring/worker.rs:648-712 | what routing decided becomes the response, the stream, the notice or the lookup |
| UringWorker.IoUringWorker.StartProxy | run/slave/src/runtime/io_uring/worker.rs:714-742 | the upstream request is made and its name asked for, or the matching notice is queued |
| UringWorker.IoUringWorker.QueueProxyError | run/slave/src/runtime/io_uring/worker.rs:1014-1031 | a current connection loses its upstream half and gets the notice; a stale identifier does nothing |
| UringWorker.IoUringWorker.FailProxy | run/slave/src/runtime/io_uring/worker.rs:1033-1051 | the notice if no upstream byte was passed on, otherwise the connection is dropped |
| UringWorker.IoUringWorker.FinishResolution | run/slave/src/runtime/io_uring/worker.rs:766-796 | an answer acts only on a current connection that waits for a name, and makes its protocol step |
| UringWorker.IoUringWorker.TryNextProxyAddress | run/slave/src/runtime/io_uring/worker.rs:798-823 | addresses are taken from the front until a socket can be made; the connect of exactly that one is in flight, or the notice is queued |
| UringWorker.IoUringWorker.HandleProxyConnect | run/slave/src/runtime/io_uring/worker.rs:888-907 | a connect completion makes the protocol step: request, next address or timeout notice |
| UringWorker.IoUringWorker.HandleProxyWrite | run/slave/src/runtime/io_uring/worker.rs:909-945 | a request-write completion makes the protocol step: rest of the request, first read, or failure |
| UringWorker.IoUringWorker.HandleResponse | run/slave/src/runtime/io_uring/worker.rs:977-1004 | an upstream read makes the protocol step: relay, end, retry or failure |
| UringWorker.IoUringWorker.HandleReadCompletion | run/slave/src/runtime/io_uring/worker.rs:454-480 | the selected buffer is back with the kernel in every case, and the connection makes the step for exactly the bytes received |
| UringWorker.IoUringWorker.HandleProxyRead | run/slave/src/runtime/io_uring/worker.rs:947-975 | as for a client receive, for an upstream one |
| UringWorker.IoUringWorker.CompleteWrite | run/slave/src/runtime/io_uring/worker.rs:166-193 | taking the completion out of the ring and handling it is one step of its connection; everything else in flight stays |
| UringWorker.IoUringWorker.CompleteRead | run/slave/src/runtime/io_uring/worker.rs:454-624 | the same for a client receive |
| UringWorker.IoUringWorker.CompleteConnect | run/slave/src/runtime/io_uring/worker.rs:888-907 | the same for a connect |
| UringWorker.IoUringWorker.CompleteRequest | run/slave/src/runtime/io_uring/worker.rs:909-945 | the same for a request write |
| UringWorker.IoUringWorker.CompleteResponse | run/slave/src/runtime/io_uring/worker.rs:947-1004 | the same for an upstream receive |
| UringWorker.IoUringWorker.HandleAnswer | run/slave/src/runtime/io_uring/worker.rs:756-796 | an answer changes only a connection that waits for it, by one protocol step, and otherwise only stops being outstanding |
| UringWorker.IoUringWorker.Pick | run/slave/src/runtime/io_uring/worker.rs:1077-1105 | exactly the connections that are overdue, or that wait for a chunk, each once |
| UringWorker.IoUringWorker.ExpireProxy | run/slave/src/runtime/io_uring/worker.rs:1107-1133 | an overdue lookup fails at once; an overdue operation is marked and stays in flight |
| UringWorker.IoUringWorker.PumpStream | run/slave/src/runtime/io_uring/worker.rs:1173-1191 | one step of a waiting file stream |
| UringWorker.IoUringWorker.SweepConnections | run/slave/src/runtime/io_uring/worker.rs:1077-1191 | exactly the picked connections take their step, all others are untouched; fails only where one of those steps cannot be submitted |
| UringWorker.IoUringWorker.RetainConnection | run/slave/src/runtime/io_uring/worker.rs:388-423 | an accepted connection is kept if and only if there is room and a slot number for it |
| UringTurns.NextControlsOk | run/slave/src/runtime/io_uring/worker.rs:1219-1256 | whatever happens, a listener is marked pending exactly while the kernel has its accept, the cancel counter is the number of cancels outstanding, shutdown is never taken back |
| UringTurns.EffectAdvances | run/slave/src/runtime/io_uring/worker.rs:1259-1343 | each happening keeps every connection in a state its protocol can reach and going forward, and adds none while shutting down |
| UringTurns.RunAdvances | run/slave/src/runtime/io_uring/worker.rs:1259-1343 | the same over every run, turn by turn, with the listeners' and shutdown invariant |
| UringTurns.EveryRunIsAwaited | run/slave/src/runtime/io_uring/worker.rs:243-1051 | after any run each connection has its one wake-up source, and relays without loss; names are read unless the worker is shutting down, and the timer runs |
| UringTurns.OnlyTheTimerIsLeft | run/slave/src/runtime/io_uring/worker.rs:756-763 | once names are no longer read, no happening but the timer changes a connection that waits for one, and they are never read again |
| UringControls.ListenerMeaning | run/slave/src/runtime/io_uring/listener.rs:75-109 | a listener falls back to single accepts exactly if the kernel knows no others, for good, and has a new accept at once unless shutdown is requested |
| UringControls.ListenersStay | run/slave/src/runtime/io_uring/worker.rs:195-241 | nothing else changes a listener |
| UringControls.ShutdownMeaning | run/slave/src/runtime/io_uring/worker.rs:1219-1242 | shutdown begins at the first top of the loop after a request, with one cancel for each accept the kernel holds |
| UringControls.RequestedExactly | run/slave/src/runtime/io_uring/worker.rs:1259-1347 | only another thread or the shutdown event makes shutdown requested |
| UringControls.TopExactly | run/slave/src/runtime/io_uring/worker.rs:1244-1257 | the run ends exactly if, shutting down, nothing is left, or the deadline has passed |
| UringControls.ArrivalExactly | run/slave/src/runtime/io_uring/worker.rs:195-241 | a connection is kept if and only if the worker is not shutting down and there is room and a number for it; it begins the slot's next occupation and waits for its first receive |
| UringControls.CompletionIsNews | run/slave/src/runtime/io_uring/worker.rs:166-193 | every completion of an operation in flight is news its connection can take, with the result and the received bytes |
| UringControls.CompletionTakesEffect | run/slave/src/runtime/io_uring/worker.rs:166-193 | and makes exactly that connection take the protocol's step |
| UringControls.NameTakesEffect | run/slave/src/runtime/io_uring/worker.rs:756-796 | so does a name for the connection that waits for it |
| UringControls.TimerMeaning | run/slave/src/runtime/io_uring/worker.rs:1077-1191 | the timer: exactly the upstream halves without progress for as long as their phase allows time out; exactly the files with nothing to send look for their next chunk; all others are untouched |
| UringControls.TimerTakesEffect | run/slave/src/runtime/io_uring/worker.rs:1077-1191 | every expiry of the timer is such a tick |
| UringControls.ProgressExactly | run/slave/src/runtime/io_uring/connection.rs:38-93 | the last progress of an upstream half is when a completion last moved it to another phase or address or by some bytes |
| UringControls.ProgressOnName | run/slave/src/runtime/io_uring/worker.rs:766-823 | or when its name was resolved |
| UringTurns.StepIsSmall | run/slave/src/runtime/io_uring/worker.rs:243-296 | with limits, notices and file pieces within 32 bits every protocol step leaves what is to be sent within 32 bits |
| UringTurns.EffectStaysComfortable | run/slave/src/runtime/io_uring/worker.rs:243-296 | so no happening leads such a worker to a state in which a submission is too long |
| UringLoop.Control.BeginShutdown | run/slave/src/runtime/io_uring/worker.rs:1219-1242 | shutdown begins once, with the time and one cancel per pending accept |
| UringLoop.Control.AcceptCompleted | run/slave/src/runtime/io_uring/worker.rs:195-241 | the listener notes the completion, falls back to single shots if the kernel knows no multishot, and is armed again unless shutdown is requested |
| UringLoop.Control.Top | run/slave/src/runtime/io_uring/worker.rs:1277-1290 | the run ends drained or at the deadline exactly when the code says so |
| UringLoop.EventLoop.DispatchReceive | run/slave/src/runtime/io_uring/worker.rs:454-480 | a receive is handled with the bytes of its own buffer, which is given back |
| UringLoop.EventLoop.ProcessNames | run/slave/src/runtime/io_uring/worker.rs:756-764 | a batch of answers, each taken in turn |
| UringLoop.EventLoop.CheckProxyTimeouts | run/slave/src/runtime/io_uring/worker.rs:1077-1191 | a tick: exactly the overdue upstream halves time out, then exactly the idle file streams are pumped |
| UringLoop.EventLoop.Turn | run/slave/src/runtime/io_uring/worker.rs:1306-1340 | one happening has exactly its effect on connections, receives, listeners and shutdown; one that cannot happen has none; a completion fails the worker exactly if the next operation cannot be submitted, and nothing fails a worker within the limits |
| UringLoop.EventLoop.Resume | run/slave/src/runtime/io_uring/worker.rs:1259-1343 | every script of happenings is run turn by turn from every valid state |
| UringLoop.EventLoop.Run | run/slave/src/runtime/io_uring/worker.rs:1259-1343 | every run from the first submissions on: it ends well only with nothing left (no connection, accept, cancel, operation or lent buffer) or after the deadline, and fails never if limits, notices and file pieces fit 32 bits |
| BufferRing.MaskIsRemainder | run/slave/src/runtime/io_uring/buffer_ring.rs:110-124 | for each ring size the 16-bit mask is the remainder, so wrapping of the tail does not show |
| BufferRing.ProvidedBufferRing.Register | run/slave/src/runtime/io_uring/buffer_ring.rs:24-89 | exactly for a power of two up to 32768 and a buffer size of one to 32 bits, and a kernel that takes it, there is a ring with every buffer published once, in order; an error otherwise |
| BufferRing.ProvidedBufferRing.Publish | run/slave/src/runtime/io_uring/buffer_ring.rs:110-124 | a lent buffer is appended to the kernel's window, across tail wrap-around, and no entry the kernel has yet to take is overwritten |
| BufferRing.ProvidedBufferRing.CopyAndRelease | run/slave/src/runtime/io_uring/buffer_ring.rs:91-108 | the bytes, or an error for a bad id or length; the buffer is back with the kernel even when the length is refused |
| BufferRing.ProvidedBufferRing.KernelTake | run/slave/src/runtime/io_uring/buffer_ring.rs:91-108 | the kernel takes the head of the window and fills only that buffer |
| BufferRing.AllBack | run/slave/src/runtime/io_uring/worker.rs:1326-1333 | with nothing lent the kernel sees every buffer exactly once |
| Identifiers.GenerationIsPeriodic | run/slave/src/runtime/io_uring/connection.rs:191-198 | the exact value of the k-th generation of a slot: period modulus minus one, never zero |
| Identifiers.SameGeneration | run/slave/src/runtime/readiness/token.rs:72-79 | two occupations have the same generation if and only if they are a multiple of the period apart |
| Identifiers.ShiftsAreArithmetic | run/slave/src/runtime/io_uring/operation.rs:26-53 | shifts, masks and ors on 64-bit words are the arithmetic of the model |
| Identifiers.DecodeEncode | run/slave/src/runtime/io_uring/operation.rs:26-53 | decoding an encoded operation gives it back, and its code is no reserved value |
| Identifiers.EncodeDecode | run/slave/src/runtime/io_uring/operation.rs:32-53 | whatever decodes is the code of just that operation; reserved values do not decode |
| Identifiers.TokenShiftsAreArithmetic | run/slave/src/runtime/readiness/token.rs:30-70 | the same for tokens |
| Identifiers.TokenDefined | run/slave/src/runtime/readiness/token.rs:31-50 | exactly one valid identifier has no token |
| Identifiers.FromTokenToken | run/slave/src/runtime/readiness/token.rs:30-70 | a token leads back to its identifier and role and is neither the control token nor a listener index |
| Identifiers.TokenFromToken | run/slave/src/runtime/readiness/token.rs:52-70 | and every token that names a connection is that connection's token |
| Readiness.OnReadableKeeps | run/slave/src/runtime/readiness/worker.rs:364-563 | a readable client, with any sixteen reads, keeps conservation and wake-up of its connection; a client still reading its request has an edge to come unless the reads used up their budget without emptying the socket |
| Readiness.OnWritableKeeps | run/slave/src/runtime/readiness/worker.rs:884-991 | so does a writable client, with any writes up to the budget |
| Readiness.OnUpstreamWritableKeeps | run/slave/src/runtime/readiness/worker.rs:679-765 | so does a writable upstream |
| Readiness.OnUpstreamReadableKeeps | run/slave/src/runtime/readiness/worker.rs:767-830 | so does a readable upstream |
| Readiness.OnResolvedKeeps | run/slave/src/runtime/readiness/worker.rs:622-677 | so does an answer of the resolver |
| Readiness.OnChoreKeeps | run/slave/src/runtime/readiness/worker.rs:1121-1266 | so do the timeouts, the idle check and the file pump |
| Readiness.OnClientEventKeeps | run/slave/src/runtime/readiness/worker.rs:270-288 | so does a client event with any of its flags |
| Readiness.OnUpstreamEventKeeps | run/slave/src/runtime/readiness/worker.rs:290-309 | so does an upstream event with any of its flags |
| Readiness.UpstreamEnd | run/slave/src/runtime/readiness/worker.rs:780-830 | the end of the upstream response removes the client only when everything received has been sent |
| Readiness.WhenTheClientIsForgotten | run/slave/src/runtime/readiness/worker.rs:900-988 | exactly when a client is left with unsent bytes and no wake-up (see Findings) |
| Readiness.ForgottenClient | run/slave/src/runtime/readiness/worker.rs:900-988 | a run from a new connection that ends so |
| Readiness.WhenTheReaderIsForgotten | run/slave/src/runtime/readiness/worker.rs:383-488 | exactly when a client is left with unread bytes of its request and no edge to come: it had sent more than sixteen reads take, and what they took is neither a whole request nor refused (see Findings) |
| Readiness.SmallLimitsForgetNobody | run/slave/src/runtime/readiness/worker.rs:383-488 | that cannot happen under a read limit below sixteen reads |
| Readiness.ForgottenUpload | run/slave/src/runtime/readiness/worker.rs:383-488 | a run from a new connection that ends so: in no queue, and only the idle timeout left |
| ReadinessTable.TurnKeeps | run/slave/src/runtime/readiness/worker.rs:247-309 | a handler that keeps its own connection in order keeps the invariant of the whole worker |
| ReadinessTable.EveryConnection | run/slave/src/runtime/readiness/worker.rs:679-991 | in every state: no local response once upstream bytes came; what came from upstream is what the client has plus the unsent rest of one chunk; the upstream has a front of the request; who waits has a wake-up, or an outstanding lookup, or its last loop of client writes (relaying) or reads (of the request) stopped only because its budget was used up; while draining, whoever is left has output or a stream |
| ReadinessTable.EveryDeparture | run/slave/src/runtime/readiness/worker.rs:816-991 | whoever has left because the upstream ended has received everything; whoever has left as delivered has all of the one response begun, head and file included, unless another displaced it; nothing is cut short but by a shutdown; whatever the reason, only a front of the upstream's bytes or of that response |
| ReadinessTable.NoLostWrite | run/slave/src/runtime/readiness/worker.rs:195-221 | a response with unsent bytes and no edge to come is written by the next pass over the write queue |
| ReadinessTable.NoLostUpstreamWrite | run/slave/src/runtime/readiness/worker.rs:195-221 | the same for a request on its way upstream |
| ReadinessTable.NoLostUpstreamRead | run/slave/src/runtime/readiness/worker.rs:195-221 | the same for a response the upstream has more of |
| ReadinessTable.IdentifierNamesItsOccupation | run/slave/src/runtime/readiness/worker.rs:84-88 | an identifier issued for one occupation names no other within 2^30 - 2 occupations |
| ReadinessTable.StaleEventIsIgnored | run/slave/src/runtime/readiness/worker.rs:247-268 | an event changes only the connection it was registered for, within that bound, and no other |
| ReadinessTable.StaleAnswerIsIgnored | run/slave/src/runtime/readiness/worker.rs:622-626 | an answer changes only the connection that asked, within that bound |
| ReadinessTable.TokensLeadBack | run/slave/src/runtime/readiness/worker.rs:335-362 | the token of a registered socket leads back to it, past every listener and the control token |
| ReadinessTable.ShutdownSparesExactly | run/slave/src/runtime/readiness/worker.rs:1030-1057 | exactly the connections with a file stream or unsent bytes survive the beginning of a shutdown, as they were |
| ReadinessOutcomes.WritesMeaning | run/slave/src/runtime/readiness/worker.rs:679-765 | a loop of writes goes on until all is written, the socket refuses or fails, or sixteen calls are made, and achieves what the socket took |
| ReadinessOutcomes.ReadsMeaning | run/slave/src/runtime/readiness/worker.rs:383-488 | a loop of reads makes of a request what the intake of the same chunks makes of it, and ends with it, an empty socket, a client that is gone, or the sixteenth read |
| ReadinessOutcomes.HangsUpMeaning | run/slave/src/runtime/readiness/worker.rs:565-591 | a client that waits for an upstream is gone if and only if a read gets nothing or fails before the loop ends otherwise |
| ReadinessOutcomes.ReadMeaning | run/slave/src/runtime/readiness/worker.rs:767-814 | the first upstream read that is not interrupted decides |
| ReadinessOutcomes.LeavesOnWrite | run/slave/src/runtime/readiness/worker.rs:884-991 | exactly when a writable client leaves, and why: delivered, cut short by a shutdown, or a write, its file or its registration failed; and when the worker fails |
| ReadinessOutcomes.LeavesOnRead | run/slave/src/runtime/readiness/worker.rs:364-563 | exactly when a readable client leaves: it has hung up, its socket has failed, or an answer cannot be registered |
| ReadinessOutcomes.LeavesOnUpstream | run/slave/src/runtime/readiness/worker.rs:679-862 | exactly when the upstream's side makes a client leave: its response has ended, or it fails once some of it has been passed on, or no answer can be registered |
| ReadinessOutcomes.WriteMoves | run/slave/src/runtime/readiness/worker.rs:884-991 | a writable client gets exactly the bytes its socket took |
| ReadinessOutcomes.UpstreamReadMoves | run/slave/src/runtime/readiness/worker.rs:767-814 | a readable upstream gives exactly the bytes one read brings, if it is their turn |
| ReadinessOutcomes.UpstreamWriteMoves | run/slave/src/runtime/readiness/worker.rs:679-765 | a writable upstream gets exactly the bytes of the request its socket took |
| ReadinessOutcomes.AnswersOnRead | run/slave/src/runtime/readiness/worker.rs:490-547 | exactly what a reading client is answered by the server itself, file contents included, or that its request goes to an upstream |
| ReadinessOutcomes.DisplacedExactly | run/slave/src/runtime/readiness/worker.rs:364-563 | a response being written is displaced if and only if the client is refused for what it sends meanwhile (see Findings) |
| ReadinessOutcomes.AnswersOnResolved | run/slave/src/runtime/readiness/worker.rs:622-677 | exactly what a client that waits for an upstream is told, or that connecting begins |
| ReadinessOutcomes.AnswersOnFailure | run/slave/src/runtime/readiness/worker.rs:832-862 | exactly what a client is told whose upstream fails or takes too long, and that nothing is said once some of the response has been passed on |
| ReadinessOutcomes.ClientEventMeaning | run/slave/src/runtime/readiness/worker.rs:270-288 | an error ends a client; otherwise writing, then reading unless draining, then, if the client has closed, only unsent bytes keep it |
| ReadinessOutcomes.UpstreamEventMeaning | run/slave/src/runtime/readiness/worker.rs:290-309 | an error is a failed connection; otherwise writing, then reading, and a close queues a read that finds out whether it is the end |
| ReadinessOutcomes.ChoreMeaning | run/slave/src/runtime/readiness/worker.rs:1181-1266 | a name that takes too long is a 504; an idle client is dropped unless its request is with an upstream |
| ReadinessUndisturbed.WholeReply | run/slave/src/runtime/readiness/worker.rs:884-991 | a reply of the server's own, its writes cut and refused for a while at will, is written to its end |
| ReadinessUndisturbed.WholeFile | run/slave/src/runtime/readiness/worker.rs:1121-1179 | a file response that nothing displaces reaches the client whole: head and every chunk |
| ReadinessUndisturbed.HeadGivesWay | run/slave/src/runtime/readiness/worker.rs:1079-1118 | a file's head beyond the write limit: the client gets the notice and then the contents of the file (see Findings) |
| ReadinessUndisturbed.RefusalGetsIn | run/slave/src/runtime/readiness/worker.rs:1140-1171 | a client that exceeds the read limit while its file waits for a chunk: the refusal goes into the middle of the response (see Findings) |
| ReadinessUndisturbed.WholeRelay | run/slave/src/runtime/readiness/worker.rs:767-991 | a relay of any chunks goes on to the upstream's end: the client has every byte in order |
| ReadinessUndisturbed.WholeProxy | run/slave/src/runtime/readiness/worker.rs:364-991 | from the read that completes a request to the end of its response: the upstream has the whole request, the client the whole response |
| ReadinessEffects.EventTakesEffect | run/slave/src/runtime/readiness/worker.rs:247-309 | an event of a registered socket of a live connection is dealt with as that connection's, on the side it is for |
| ReadinessEffects.ListenerTakesEffect | run/slave/src/runtime/readiness/worker.rs:247-268 | a listener's event brings in the sockets that wait there, until the worker drains |
| ReadinessEffects.AcceptedExactly | run/slave/src/runtime/readiness/worker.rs:311-362 | an accepted socket becomes a connection if and only if there is room and a number for it and it can be registered |
| ReadinessEffects.AnswerTakesEffect | run/slave/src/runtime/readiness/worker.rs:615-665 | the answer to the name that a connection waits for is dealt with as such |
| ReadinessEffects.TurnVisits | run/slave/src/runtime/readiness/worker.rs:175-245 | in every turn each connection for which a chore is due, or which is queued, takes exactly the step for the first of these, in the order of the loop |
| ReadinessWorker.TryWrites | run/slave/src/runtime/readiness/worker.rs:900-946 | the bounded write loop: how far it gets and why it stops |
| ReadinessWorker.TryReads | run/slave/src/runtime/readiness/worker.rs:376-480 | the bounded read loop: the request so far with the socket emptied or the budget used up, complete, refused or ended |
| ReadinessWorker.ReadinessWorker.WriteReady | run/slave/src/runtime/readiness/worker.rs:884-991 | exactly the step of Readiness.OnWritable for this connection, nothing for any other |
| ReadinessWorker.ReadinessWorker.ConnectionReady | run/slave/src/runtime/readiness/worker.rs:364-563 | exactly the step of Readiness.OnReadable |
| ReadinessWorker.ReadinessWorker.WriteUpstreamRequest | run/slave/src/runtime/readiness/worker.rs:679-765 | exactly the step of Readiness.OnUpstreamWritable |
| ReadinessWorker.ReadinessWorker.ReadUpstreamResponse | run/slave/src/runtime/readiness/worker.rs:767-830 | exactly the step of Readiness.OnUpstreamReadable |
| ReadinessWorker.ReadinessWorker.FinishResolution | run/slave/src/runtime/readiness/worker.rs:622-665 | exactly the step of Readiness.OnResolved; fails exactly for an identifier without token |
| ReadinessWorker.ReadinessWorker.Pass | run/slave/src/runtime/readiness/worker.rs:195-221 | a pass over a queue or a chore: every connection it is for takes exactly its step, from the state before the pass, no other changes |
| ReadinessWorker.ReadinessWorker.ProcessDnsResults | run/slave/src/runtime/readiness/worker.rs:615-620 | the answers, one after the other |
| ReadinessWorker.ReadinessWorker.Dispatch | run/slave/src/runtime/readiness/worker.rs:247-268 | an event has exactly its effect on the connection its token names, if current |
| ReadinessWorker.ReadinessWorker.AcceptReady | run/slave/src/runtime/readiness/worker.rs:311-362 | accepted sockets are registered in new occupations of vacant slots as long as there is room |
| ReadinessWorker.ReadinessWorker.BeginShutdown | run/slave/src/runtime/readiness/worker.rs:1030-1057 | exactly the connections without output or stream are closed, the others stay |
| ReadinessWorker.ReadinessWorker.CloseAllConnections | run/slave/src/runtime/readiness/worker.rs:1273-1288 | nothing is left |
| ReadinessWorker.ReadinessWorker.RunTurn | run/slave/src/runtime/readiness/worker.rs:175-245 | a turn is its stages: begin shutdown, answers, timeouts, pump, three queues, events, the kernel answering anew at each of them; it is done only when draining with nothing left, and fails only if the kernel makes trouble |
| ReadinessWorker.ReadinessWorker.Run | run/slave/src/runtime/readiness/worker.rs:175-245 | every run is such turns, one after the other, and keeps the invariant |
| Http.ParseRequestHead | run/slave/src/http.rs:110-148 | the incremental parser is its specification |
| Http.ComputeBodyLength | run/slave/src/http.rs:37-68 | the accumulator loop is the framing function |
| Http.BodyLengthMeaning | run/slave/src/http.rs:37-68 | a head frames n bytes if and only if it has no transfer coding and every content length is a number equal to n (none meaning 0) |
| Http.ReceiveRequest | run/slave/src/runtime/io_uring/worker.rs:548-618 | the intake of a received chunk, as both workers run it |
| Http.FragmentationIndependence | run/slave/src/http.rs:110-152 | every cutting of a stream into reads gives the head, body or refusal of one read, if and only if the head does not end within three bytes of the limit or is invalid anyway |
| Http.BoundarySplit | run/slave/src/http.rs:110-152 | the reads that a boundary head does not survive (see Findings) |
| Grammar.TokenMeaning | run/slave/src/http.rs:191-195 | a token has exactly the visible ASCII characters that are no delimiters of section 5.6.2 of RFC 9110 |
| Grammar.LinesMeaning | run/slave/src/http.rs:110-148 | splitting into lines loses nothing and leaves no line break inside a line |
| Grammar.RequestLineExactly | run/slave/src/http.rs:154-177 | exactly the request lines: a token, a target without control characters and one of two versions, as three words between white space |
| Grammar.FieldExactly | run/slave/src/http.rs:179-189 | exactly the header fields: a token, a colon, and a value without line breaks that is trimmed; the name in lower case |
| Grammar.FieldsExactly | run/slave/src/http.rs:110-148 | a list of lines is accepted if and only if every line is a field, and the fields are theirs in order |
| Grammar.HeadExactly | run/slave/src/http.rs:110-148 | exactly the heads: a first blank line within the limit, ASCII before it, a request line and fields |
| Grammar.IncompleteExactly | run/slave/src/http.rs:110-120 | more is waited for if and only if there is no blank line and no more than 16384 bytes |
| Grammar.IntakeExactly | run/slave/src/runtime/readiness/worker.rs:410-477 | what a stream with a head comes to: exactly when it is a request with which body, and exactly when it is refused as which of three |
| Grammar.NoHeadExactly | run/slave/src/runtime/readiness/worker.rs:410-477 | what it comes to without one |
| Upstream.ParseUrlMeaning | run/slave/src/proxy.rs:29-65 | an accepted URL is its scheme, authority and base path put together again; the port is 80 if none is named |
| Upstream.RequestBytes | run/slave/src/proxy.rs:71-115 | the appending loop is the printer |
| Upstream.ParsedIsWellFormed | run/slave/src/http.rs:110-189 | every parsed request is fit to be printed |
| Upstream.PrintThenParse | run/slave/src/proxy.rs:71-115 | within the head limit, parsing what is printed gives the intended method, target and filtered headers, and leaves exactly the body |
| Upstream.ForwardedFraming | run/slave/src/proxy.rs:71-115 | the forwarded head announces the body that follows if and only if the client did not have its content length stripped, or the body is empty |
| Upstream.ForwardedIsReceived | run/slave/src/proxy.rs:71-115 | an upstream that reads by the same rules receives the intended head and exactly the body |
| Forwarding.ForwardedMeaning | run/slave/src/proxy.rs:71-115 | what an upstream reads: the client's method; the base path without slashes at its end, then the client's target; its own host; exactly the client's fields that are none of the six for this hop and named by no Connection field, by position and in order; Connection: close; then the body |
| Forwarding.TargetIsUnique | run/slave/src/proxy.rs:80-88 | there is only one such target |
| Forwarding.UrlExactly | run/slave/src/proxy.rs:29-65 | exactly the URLs that are accepted, with their authority, base path and address to connect to |
| Forwarding.OtherSchemes | run/slave/src/proxy.rs:29-40 | any other scheme is refused |
| Inputs.WrittenIsReceived | run/slave/src/http.rs:110-189 | a request written in lines is read back as exactly that request and body |
| Inputs.BoundaryHead | run/slave/src/http.rs:110-152 | a head of 16384 bytes that one read accepts and two refuse (see Findings) |
| Inputs.LostContentLength | run/slave/src/proxy.rs:71-107 | received bytes of a request with a body whose forwarded form reads as a request without one, the body left over (see Findings) |
| Inputs.ForgottenUploader | run/slave/src/runtime/readiness/worker.rs:383-488 | an upload of 200000 bytes that a readiness worker forgets (see Findings) |
| Inputs.SendTooLong | run/slave/src/runtime/io_uring/worker.rs:243-296 | a request whose answer of 2^32 bytes cannot be submitted (see Findings) |
| Server.ResponseIsFramed | run/slave/src/router.rs:64-107 | the first blank line of a response is right before its body; its first line has the status and its phrase; its fields are read back as announcing exactly that body |
| Server.NoticeStatus | run/slave/src/runtime/io_uring/worker.rs:626-646 | the status of every notice of the server's own |
| Server.RunReadsWhole | run/slave/src/runtime/io_uring/worker.rs:548-618 | over every run a connection that is still reading holds what one read of all its bytes would have left |
| Server.ReadsDoNotMatter | run/slave/src/runtime/io_uring/worker.rs:454-624 | over every run, whatever the reads, the request ends with what one read of the whole stream gives, for every stream not on the boundary |
| Server.RequestReachesUpstream | run/slave/src/runtime/io_uring/worker.rs:648-945 | end to end over every run: once the request is sent, the one socket it went to has received the head to be forwarded and the client's body, from the bytes the client sent however they were cut |
| Balancer.UpstreamBalancer.Select | run/slave/src/load_balancer.rs:41-101 | the endpoint owning the cursor's position, and only its pool's cursor moved on by one; or the error, or the panic, of the code |
| Balancer.GroupKey | run/slave/src/load_balancer.rs:103-112 | the loop builds the key of the specification |
| Balancer.KeysAreDistinct | run/slave/src/load_balancer.rs:103-112 | inline pools none of whose URLs reads like an endpoint, its weight and another URL share a cursor only if equal; none ever shares one with a named group |
| Balancer.WhenKeysCollide | run/slave/src/load_balancer.rs:103-112 | exactly when a pool of a valid configuration shares its cursor with a different one of some valid configuration: it has two endpoints or more, or its only URL can be split into two |
| Balancer.BarsCollide | run/slave/src/load_balancer.rs:103-112 | two pools with one key, both valid (see Findings) |
| Balancer.ValidNeverFails | crates/core/src/runtime/config.rs:539-615 | for a validated configuration selecting neither fails nor panics |
| Balancer.WeightedFairness | run/slave/src/load_balancer.rs:41-101 | in any stretch with as many selections from a pool as its weights add up to, however interleaved with others, each endpoint is chosen exactly its weight |
| Fairness.GroupFairness | run/slave/src/load_balancer.rs:41-101 | for each group of the configuration: a stretch with as many selections from it as its servers add up to, other selections in between at will, chooses each server as often as its weight says, or once if the group does not go by weight |
| Fairness.ListFairness | run/slave/src/load_balancer.rs:41-101 | the same for a list of endpoints written with an action, by its policy and weights |
| Fairness.NowhereExactly | run/slave/src/load_balancer.rs:41-60 | exactly the actions that lead nowhere, and with which error |
| Balancer.SelectAll | run/slave/src/load_balancer.rs:41-101 | every sequence of selections is such a run, and returns the action's own upstream, or the URL of the chosen server of the group it names, or of the chosen endpoint of its list |
| StaticFiles.RangeMeaning | run/slave/src/static_files.rs:122-150 | every spelling of a range is answered with the requested interval clipped to the file, or refused, for every length |
| StaticFiles.AcceptedSpells | run/slave/src/static_files.rs:122-150 | nothing else is accepted |
| StaticFiles.NumberExactly | run/slave/src/static_files.rs:122-150 | exactly the spellings of a position: digits, after one plus sign at most, of a number below 2^64 (see Findings) |
| StaticFiles.LeadingZero | run/slave/src/static_files.rs:122-150 | zeros before a number do not change it |
| StaticFiles.WrittenRangeMeaning | run/slave/src/static_files.rs:122-150 | a range written as section 14.1.2 of RFC 9110 has it is answered with what it asks for |
| StaticFiles.EtagsDiffer | run/slave/src/static_files.rs:46-58 | files of different length or modification time have different entity tags |
| StaticFiles.ReadChunks | run/slave/src/static_files.rs:98-120 | chunks of 1 to 65536 bytes that concatenate to the slice; failure exactly if the file has become too short |
| StaticFiles.StaticResponse | run/slave/src/static_files.rs:39-96 | 405 for other methods; 304 exactly if the client names the file's tag; an error exactly for a bad range; otherwise a head and a stream that delivers exactly the slice asked for |
| FileHeads.FileHeadMeaning | run/slave/src/static_files.rs:67-96 | a file's head as its client reads it: ends at its only blank line; 206 exactly if a range is asked for; frames exactly as many bytes as the asked portion has; names its first and last position and the file's length; and a GET is streamed exactly that portion |
| FileHeads.UnchangedMeaning | run/slave/src/static_files.rs:53-66 | the 304 as its client reads it: the tag, and no body announced |
| StaticFiles.FileIsDelivered | run/slave/src/runtime/io_uring/worker.rs:1193-1217 | a client served to the end has the head and exactly the announced bytes |
| StaticFiles.PercentDecode | run/slave/src/static_files.rs:285-304 | the decoding loop is its specification |
| StaticFiles.DecodeEncode | run/slave/src/static_files.rs:285-313 | whatever is escaped, decoding gives it back |
| StaticFiles.DecodeExactly | run/slave/src/static_files.rs:285-313 | exactly the strings that decode, and to what: bytes as they are and percent signs with two hexadecimal digits |
| Shutdown.NoRequestIsMissed | run/slave/src/runtime/mod.rs:31-75 | in every interleaving of any number of requests with the installations, once all have finished the flag is set, an installed event has been written, an installed waker was woken or finds the flag set |
| Shutdown.NothingWithoutRequest | run/slave/src/runtime/mod.rs:31-52 | without a request nothing is ever set, written or woken |
| Shutdown.WakerSees | run/slave/src/runtime/mod.rs:56-75 | the worker finds, once its waker is installed, the flag as it was at that moment |
| Shutdown.TheSecondLookMatters | run/slave/src/runtime/mod.rs:68-75 | an installer that does not look at the flag again misses a request: the schedule |
| Shutdown.ShutdownHandle.Run | run/slave/src/runtime/mod.rs:31-75 | the handle follows any schedule step by step |
| Supervisor.DelayDoubles | run/master/src/main.rs:209-214 | the delay doubles with each failure up to the maximum; the capped exponent does not show |
| Supervisor.StreakMeaning | run/master/src/main.rs:129-133 | the failure count is the number of failures in a row of which all but the first came within the stable window |
| Supervisor.WaitsOrIsOver | run/master/src/main.rs:120-150 | a slot that is not alive waits, if its last child failed while the master was not stopping, until the delay for its failures in a row is over; otherwise, and only then, it is over |
| Supervisor.TurnMeaning | run/master/src/main.rs:95-172 | a turn: every slot whose delay is over has a new child and no other has, unless stopping; it ends well exactly if nobody is alive and, unless stopping, nobody is to be restarted |
| Supervisor.Master.Reap | run/master/src/main.rs:120-143 | exactly the slot of the ended child is freed, and a failure schedules its restart after the delay unless stopping |
| Supervisor.Master.RestartDue | run/master/src/main.rs:152-163 | exactly the slots that are due have a new child |
| Supervisor.Master.Turn | run/master/src/main.rs:102-171 | one turn: signal, reap one child, restart what is due, end when nothing is left |
| Supervisor.Master.Supervise | run/master/src/main.rs:95-172 | every run is such turns: no slot both live and scheduled, restarts no earlier than their delay, none once stopping, and it ends well only with no worker alive |

## Left out

- Text: bytes are characters and text is ASCII; UTF-8 validation and case folding beyond ASCII are not modelled.
- TLS: handshakes, `ssl_write_buffer`, close_notify and certificates; every connection is plaintext.
- Routing, virtual hosts and listener groups: what routing decides about a request is an arbitrary parameter, in
  `Exchange` a `Plan`; so the listener that a connection came from has no consequence.
- The filesystem: path resolution and MIME types; a file is its bytes, its modification time and its type.
- Clocks: the time of every event is a parameter. In the readiness worker the connections that a timeout picks are an
  arbitrary set; in the io_uring worker they are those whose phase has lasted too long by the recorded times.
- Completions whose identifier does not decode: every identifier that is submitted decodes
  (`Identifiers.DecodeEncode`), and the modelled kernel reports no others.
- Errors of the ring's own `submit`, of `poll` and of querying a socket's error; they end a worker in the source.
- Metrics, logs, CPU pinning, runtime selection and configuration defaults; of the configuration only the rules for
  upstream endpoints.
- The kernel's side of io_uring is what `UringLoop` says of it; fences, raw pointers and descriptors are not modelled,
  that memory is held while in flight is.
- Connection records of the io_uring worker are values in a map that the methods replace, so two names for one record
  (aliasing) cannot arise in the model.
- The struct of the io_uring worker is split into `IoUringWorker`, `Control`, `CompletedReceives` and `EventLoop`; the
  listener looks after its accept before the connection is kept, where the source does half of it after.
- Passes over connections go by slot number, where the source goes over a hash set's snapshot in its own order.
- The wrap-around of the balancer's 64-bit cursor is modelled, fairness across it is not claimed.
- Pids in the supervisor: a new child never has the pid of a living one; the 50 ms sleep and the forked child are left
  out.
- Configured texts that do not fit the write limit become the notice for that, as in the source; whether the notices
  themselves fit is an assumption where it matters.
- Edges of the readiness worker's sockets: that a read which gets less than it asks for has emptied the socket, so that
  whatever arrives later is announced, is taken from the manual of edge-triggered polling.
- ReadinessTable.NoLostWrite: is about responses of the server's own; for relayed responses it is false, see Findings.
- Balancer.WeightedFairness: leaves out stretches in which the 64-bit cursor wraps, where fairness does not follow.
