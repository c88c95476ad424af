/** One plaintext client connection of the readiness worker (worker.rs, connection.rs and proxy.rs under readiness/):
    its record, its places in the worker's three queues of unfinished work, a log of what went through it, and what each
    kind of readiness does to it. The worker itself is in ReadinessWorker.dfy. */
module Readiness {
  import opened Common
  import opened Http
  import Exchange

  type Notice = Exchange.Notice
  type Setup = Exchange.Setup
  type Stream = Exchange.Stream
  type Plan = Exchange.Plan

  const MAX_READS_PER_EVENT: nat := 16
  const MAX_WRITES_PER_EVENT: nat := 16
  const READ_SIZE: nat := 8192

  datatype ProxyPhase = Connecting | WritingRequest | ReadingResponse

  function Waiting(phase: ProxyPhase): Exchange.Phase {
    match phase
    case Connecting => Exchange.ConnectingPhase
    case WritingRequest => Exchange.WritingRequest
    case ReadingResponse => Exchange.ReadingResponse
  }

  datatype ProxyState = ProxyState(
    requestBuffer: Bytes,
    requestOffset: nat,
    responseStarted: bool,
    phase: ProxyPhase)

  datatype ConnectionPhase =
    | Reading(pending: Option<Pending>)
    | WritingResponse
    | Resolving(request: Bytes)
    | Proxying(proxy: ProxyState)

  datatype Connection = Connection(
    generation: nat,
    listenerGroup: nat,
    readBuffer: Bytes,
    writeBuffer: Bytes,
    writeOffset: nat,
    staticStream: Option<Stream>,
    phase: ConnectionPhase)
  {
    predicate Drained() { writeOffset == |writeBuffer| }
  }

  /** What went through a connection, and every response of the server's own that was ever begun, whole; and whether the
      kernel still owes it an edge, because it refused the last call on
      the socket, or the last read emptied it, or because the socket was registered anew since: for writes to the
      client, on the upstream's socket, for reads from the client. The last two say that the last loop of writes to the
      client, or of reads from it, came to its end only because its budget was used up. */
  datatype Log = Log(
    toClient: Bytes,
    fromUpstream: Bytes,
    toUpstream: Bytes,
    responses: seq<Bytes>,
    clientArmed: bool,
    upstreamArmed: bool,
    readArmed: bool,
    writesSpent: bool,
    readsSpent: bool)

  /** A connection as the worker sees it; the flags are its places in the three queues. */
  datatype Entry = Entry(
    conn: Connection,
    log: Log,
    writeQueued: bool,
    upstreamWriteQueued: bool,
    upstreamReadQueued: bool)

  function NewConnection(generation: nat, listenerGroup: nat): Connection {
    Connection(generation, listenerGroup, "", "", 0, None, Reading(None))
  }

  const EMPTY_LOG: Log := Log("", "", "", [], false, false, true, false, false)

  /** How a connection ends: its own response was delivered, the upstream ended its response, shutdown cut it short with
      everything received passed on, or something went wrong. */
  datatype Cause = Delivered | UpstreamEnded | CutShort | Aborted

  /** What becomes of a connection: it stays, or it leaves with a final log, or the worker itself gives up. */
  datatype Next = Stays(entry: Entry) | Leaves(cause: Cause, log: Log) | Fails

  /** What the kernel will say to everything that one queue entry, or one part of an event, makes the worker ask: its
      sockets, and whether it accepts a registration. `plan` is what routing says of the request, `ready` whether a file
      chunk is there. */
  datatype Kernel = Kernel(
    clientWrites: seq<WriteResult>,
    clientReads: seq<ReadResult>,
    upstreamConnected: bool,
    upstreamWrites: seq<WriteResult>,
    upstreamReads: seq<ReadResult>,
    plan: Routing,
    ready: bool,
    registersClient: bool,
    registersUpstream: bool)

  /** Routing a request always finds the listener it came in by. */
  type Routing = p: Plan | !p.NoListener? witness Exchange.NoUpstream

  // ---------------------------------------------------------------- sockets

  datatype WriteResult = Written(count: nat) | WriteWouldBlock | WriteInterrupted | WriteFailed

  datatype ReadResult = Data(bytes: Bytes) | ReadWouldBlock | ReadInterrupted | ReadFailed

  /** Why a bounded loop of writes came to an end. */
  datatype WriteEnd = AllWritten | Blocked | Broken | Spent

  /** What a bounded loop of writes achieves, given what the socket will say; a socket that says nothing blocks. A
      socket never takes more than it is given. */
  function Writes(offset: nat, length: nat, results: seq<WriteResult>, budget: nat): (r: (nat, WriteEnd))
    requires offset <= length
    ensures offset <= r.0 <= length
    ensures r.1.AllWritten? <==> r.0 == length
    decreases budget
  {
    if offset == length then (offset, AllWritten)
    else if budget == 0 then (offset, Spent)
    else if results == [] then (offset, Blocked)
    else
      match results[0]
      case Written(count) =>
        if count == 0 then (offset, Broken)
        else Writes(offset + Taken(count, length - offset), length, results[1..], budget - 1)
      case WriteWouldBlock => (offset, Blocked)
      case WriteInterrupted => Writes(offset, length, results[1..], budget - 1)
      case WriteFailed => (offset, Broken)
  }

  function Taken(count: nat, available: nat): nat { if count < available then count else available }

  /** The result of one read, repeated while it is interrupted. */
  function FirstRead(results: seq<ReadResult>): (r: ReadResult)
    ensures !r.ReadInterrupted?
  {
    if results == [] then ReadWouldBlock
    else if results[0].ReadInterrupted? then FirstRead(results[1..])
    else results[0]
  }

  /** A read delivers no more than it asks for. */
  function Clip(result: ReadResult, limit: nat): ReadResult {
    if result.Data? && |result.bytes| > limit then Data(result.bytes[..limit]) else result
  }

  /** What a bounded loop of reads from the client comes to. */
  datatype ReadEnd =
    | Waits(buffer: Bytes, pending: Option<Pending>)
    | Stops(buffer: Bytes, pending: Option<Pending>)
    | Refuses(buffer: Bytes, refusal: Refusal)
    | Completes(buffer: Bytes, head: RequestHead, body: Bytes)
    | Closes

  /** One read asks for as many bytes as its buffer holds; one that gets fewer has emptied the socket (`dry`). The loop
      waits for the next edge once the socket is empty, and stops without that when its budget is used up. A connection
      that is no longer reading its request parses what it is sent but never completes it. */
  function ReadLoop(
      limit: nat, buffer: Bytes, pending: Option<Pending>, reading: bool, results: seq<ReadResult>, budget: nat,
      dry: bool)
    : (end: ReadEnd)
    requires PendingOk(pending) && (!reading ==> pending == None)
    ensures (end.Waits? || end.Stops? ==> PendingOk(end.pending)) && (end.Completes? ==> reading)
    decreases budget
  {
    if budget == 0 then (if dry then Waits(buffer, pending) else Stops(buffer, pending))
    else if results == [] then Waits(buffer, pending)
    else
      match Clip(results[0], READ_SIZE)
      case ReadWouldBlock => Waits(buffer, pending)
      case ReadInterrupted => ReadLoop(limit, buffer, pending, reading, results[1..], budget - 1, dry)
      case ReadFailed => Closes
      case Data(bytes) =>
        if bytes == "" then Closes
        else
          match Ingest(limit, buffer, pending, bytes)
          case Rejected(refusal) => Refuses(if |buffer + bytes| > limit then buffer else buffer + bytes, refusal)
          case Ready(head, body) =>
            if reading then Completes(buffer + bytes, head, body)
            else ReadLoop(limit, buffer + bytes, None, reading, results[1..], budget - 1, |bytes| < READ_SIZE)
          case More(_, next) =>
            ReadLoop(limit, buffer + bytes, if reading then next else None, reading, results[1..], budget - 1,
              |bytes| < READ_SIZE)
  }

  // ---------------------------------------------------------------- local responses

  /** What a file stream has yet to deliver. */
  function Rest(stream: Option<Stream>): Bytes { if stream.Some? then Flatten(stream.value.chunks) else "" }

  /** The response as it is begun. One that is too long gives way to a notice, but what follows it stays: then two have
      begun, and the second is neither the one nor the other. */
  function Opening(setup: Setup, response: Bytes, stream: Option<Stream>): (begun: seq<Bytes>)
    ensures |begun| == 1 || |begun| == 2
  {
    if |response| <= setup.maxWrite then [response + Rest(stream)]
    else if Rest(stream) == "" then [setup.render(Exchange.ResponseTooLarge)]
    else [response + Rest(stream), setup.render(Exchange.ResponseTooLarge) + Rest(stream)]
  }

  /** Queue a response of the server's own. `registers` says whether the kernel accepts the new registration. */
  function Respond(setup: Setup, e: Entry, response: Bytes, registers: bool): Next {
    if !registers then Leaves(Aborted, e.log)
    else
      var fitting := if |response| > setup.maxWrite then setup.render(Exchange.ResponseTooLarge) else response;
      Stays(e.(conn := e.conn.(phase := WritingResponse, writeBuffer := fitting, writeOffset := 0),
               log := e.log.(responses := e.log.responses + Opening(setup, response, e.conn.staticStream),
                             clientArmed := true, writesSpent := false)))
  }

  /** Give up on the upstream: say so if nothing was passed on and nothing is queued, otherwise drop the client. */
  function Fail(setup: Setup, e: Entry, notice: Notice, registers: bool): Next
    requires e.conn.phase.Proxying?
  {
    if e.conn.phase.proxy.responseStarted || e.conn.writeBuffer != "" then Leaves(Aborted, e.log)
    else
      var detached :=
        e.(conn := e.conn.(phase := WritingResponse), upstreamWriteQueued := false, upstreamReadQueued := false);
      Respond(setup, detached, setup.render(notice), registers)
  }

  // ---------------------------------------------------------------- the client is readable

  function OnRequest(setup: Setup, e: Entry, head: RequestHead, body: Bytes, plan: Routing, registers: bool): Next {
    match plan
    case Respond(status, text) => Respond(setup, e, setup.render(Exchange.Configured(status, text)), registers)
    case Serve(first, stream) => Respond(setup, e.(conn := e.conn.(staticStream := stream)), first, registers)
    case NoUpstream => Respond(setup, e, setup.render(Exchange.BadUpstream), registers)
    case Forward(url, resolverRuns) =>
      match setup.forward(url, head, body)
      case None => Respond(setup, e, setup.render(Exchange.ConnectionFailed), registers)
      case Some(request) =>
        if |request| > setup.maxRead || !resolverRuns then
          Respond(setup, e, setup.render(Exchange.ConnectionFailed), registers)
        else Stays(e.(conn := e.conn.(phase := Resolving(request))))
  }

  /** While a request is with the upstream, what the client sends is thrown away; the client may only hang up. */
  function HangsUp(results: seq<ReadResult>, budget: nat): bool
    decreases budget
  {
    if budget == 0 || results == [] then false
    else
      match results[0]
      case ReadWouldBlock => false
      case ReadInterrupted => HangsUp(results[1..], budget - 1)
      case ReadFailed => true
      case Data(bytes) => bytes == "" || HangsUp(results[1..], budget - 1)
  }

  predicate HandlesRequest(phase: ConnectionPhase) { phase.Resolving? || phase.Proxying? }

  function PendingOf(phase: ConnectionPhase): Option<Pending> { if phase.Reading? then phase.pending else None }

  function ReadsOf(setup: Setup, c: Connection, results: seq<ReadResult>): ReadEnd
    requires PendingOk(PendingOf(c.phase))
  {
    ReadLoop(setup.maxRead, c.readBuffer, PendingOf(c.phase), c.phase.Reading?, results, MAX_READS_PER_EVENT, false)
  }

  /** More of a request has been read, but not all of it. */
  function HasRead(e: Entry, buffer: Bytes, pending: Option<Pending>, dry: bool): Entry {
    var phase := if e.conn.phase.Reading? then Reading(pending) else e.conn.phase;
    e.(conn := e.conn.(readBuffer := buffer, phase := phase), log := e.log.(readArmed := dry, readsSpent := !dry))
  }

  function OnReads(setup: Setup, e: Entry, end: ReadEnd, plan: Routing, registers: bool): Next {
    match end
    case Waits(buffer, pending) => Stays(HasRead(e, buffer, pending, true))
    case Stops(buffer, pending) => Stays(HasRead(e, buffer, pending, false))
    case Refuses(buffer, refusal) =>
      Respond(setup, e.(conn := e.conn.(readBuffer := buffer)), setup.render(Exchange.Refused(refusal)), registers)
    case Completes(buffer, head, body) =>
      OnRequest(setup, e.(conn := e.conn.(readBuffer := buffer, phase := Reading(None))), head, body, plan, registers)
    case Closes => Leaves(Aborted, e.log)
  }

  function OnReadable(setup: Setup, e: Entry, k: Kernel): Next
    requires PendingOk(PendingOf(e.conn.phase))
  {
    if HandlesRequest(e.conn.phase) then
      if HangsUp(k.clientReads, MAX_READS_PER_EVENT) then Leaves(Aborted, e.log) else Stays(e)
    else OnReads(setup, e, ReadsOf(setup, e.conn, k.clientReads), k.plan, k.registersClient)
  }

  // ---------------------------------------------------------------- the client is writable

  /** The next piece of a file response; waiting for it, the client is watched for hanging up. A registration that is
      refused here ends the worker. */
  function NextChunk(e: Entry, ready: bool, registers: bool): Next
    requires e.conn.staticStream.Some?
  {
    var stream := e.conn.staticStream.value;
    if ready && stream.chunks == [] then Leaves(if stream.fails then Aborted else Delivered, e.log)
    else if !registers then Fails
    else if !ready then Stays(e)
    else
      var rest := Some(stream.(chunks := stream.chunks[1..]));
      Stays(e.(conn := e.conn.(staticStream := rest, writeBuffer := stream.chunks[0], writeOffset := 0),
               log := e.log.(clientArmed := true, writesSpent := false)))
  }

  /** The client has everything that was queued. */
  function OnDrained(e: Entry, draining: bool, ready: bool, registers: bool): Next {
    if e.conn.phase.Reading? || e.conn.phase.Resolving? then
      if registers then Stays(e.(log := e.log.(readArmed := true, readsSpent := false))) else Leaves(Aborted, e.log)
    else if e.conn.staticStream.Some? then NextChunk(e, ready, registers)
    else if e.conn.phase.WritingResponse? then Leaves(Delivered, e.log)
    else if draining then Leaves(CutShort, e.log)
    else if !registers then Leaves(Aborted, e.log)
    else Stays(e.(conn := e.conn.(writeBuffer := "", writeOffset := 0), upstreamReadQueued := true))
  }

  /** More bytes have been accepted by the client. */
  function Sent(e: Entry, offset: nat, end: WriteEnd): Entry
    requires e.conn.writeOffset <= offset <= |e.conn.writeBuffer|
  {
    var more := e.conn.writeBuffer[e.conn.writeOffset..offset];
    e.(conn := e.conn.(writeOffset := offset),
       log := e.log.(toClient := e.log.toClient + more, clientArmed := end.Blocked?, writesSpent := end.Spent?))
  }

  function OnWritable(e: Entry, draining: bool, k: Kernel): Next
    requires e.conn.writeOffset <= |e.conn.writeBuffer|
  {
    var (offset, end) := Writes(e.conn.writeOffset, |e.conn.writeBuffer|, k.clientWrites, MAX_WRITES_PER_EVENT);
    AfterWrites(Sent(e, offset, end), end, draining, k)
  }

  function AfterWrites(e: Entry, end: WriteEnd, draining: bool, k: Kernel): Next {
    match end
    case Blocked => Stays(e)
    case Broken => Leaves(Aborted, e.log)
    case AllWritten => OnDrained(e, draining, k.ready, k.registersClient)
    case Spent => Stays(if e.conn.phase.WritingResponse? then e.(writeQueued := true) else e)
  }

  // ---------------------------------------------------------------- the upstream

  /** The resolver has answered. `identified` says whether the upstream's socket can be given a token at all; that it
      cannot ends the worker. */
  function OnResolved(setup: Setup, e: Entry, answer: Option<seq<nat>>, identified: bool, k: Kernel): Next {
    if !e.conn.phase.Resolving? then Stays(e)
    else
      match answer
      case None => Respond(setup, e, setup.render(Exchange.ResolutionFailed), k.registersClient)
      case Some(addresses) =>
        if addresses == [] then Respond(setup, e, setup.render(Exchange.NoAddress), k.registersClient)
        else if !k.upstreamConnected then
          Respond(setup, e, setup.render(Exchange.ConnectionFailed), k.registersClient)
        else if !identified then Fails
        else if !k.registersUpstream then
          Respond(setup, e, setup.render(Exchange.ConnectionFailed), k.registersClient)
        else
          var proxy := ProxyState(e.conn.phase.request, 0, false, Connecting);
          Stays(e.(conn := e.conn.(phase := Proxying(proxy)), log := e.log.(upstreamArmed := true)))
  }

  /** Bytes of the request have been accepted by the upstream. */
  function Forwarded(e: Entry, offset: nat, armed: bool): Entry
    requires e.conn.phase.Proxying?
    requires e.conn.phase.proxy.requestOffset <= offset <= |e.conn.phase.proxy.requestBuffer|
  {
    var p := e.conn.phase.proxy;
    var more := p.requestBuffer[p.requestOffset..offset];
    e.(conn := e.conn.(phase := Proxying(p.(requestOffset := offset, phase := WritingRequest))),
       log := e.log.(toUpstream := e.log.toUpstream + more, upstreamArmed := armed))
  }

  function OnUpstreamWritable(setup: Setup, e: Entry, k: Kernel): Next
    requires e.conn.phase.Proxying? ==> e.conn.phase.proxy.requestOffset <= |e.conn.phase.proxy.requestBuffer|
  {
    if !e.conn.phase.Proxying? || e.conn.phase.proxy.phase.ReadingResponse? then Stays(e)
    else
      var p := e.conn.phase.proxy;
      if p.phase.Connecting? && !k.upstreamConnected then Fail(setup, e, Exchange.ConnectionFailed, k.registersClient)
      else
        var (offset, end) := Writes(p.requestOffset, |p.requestBuffer|, k.upstreamWrites, MAX_WRITES_PER_EVENT);
        AfterForwarding(setup, Forwarded(e, offset, end.Blocked?), end, k)
  }

  function AfterForwarding(setup: Setup, e: Entry, end: WriteEnd, k: Kernel): Next
    requires e.conn.phase.Proxying?
  {
    match end
    case Blocked => Stays(e)
    case Broken => Fail(setup, e, Exchange.ConnectionFailed, k.registersClient)
    case Spent => Stays(e.(upstreamWriteQueued := true))
    case AllWritten =>
      var reading := e.(conn := e.conn.(phase := Proxying(e.conn.phase.proxy.(phase := ReadingResponse))));
      if k.registersUpstream then Stays(reading.(log := e.log.(upstreamArmed := true)))
      else Fail(setup, reading, Exchange.ConnectionFailed, k.registersClient)
  }

  /** What one read from the upstream says; it asks for no more than fits. */
  function ReadOf(setup: Setup, k: Kernel): (r: ReadResult)
    ensures !r.ReadInterrupted? && (r.Data? ==> |r.bytes| <= Taken(READ_SIZE, setup.maxWrite))
  {
    Clip(FirstRead(k.upstreamReads), Taken(READ_SIZE, setup.maxWrite))
  }

  predicate AwaitsUpstream(c: Connection) {
    c.phase.Proxying? && c.writeBuffer == "" && c.phase.proxy.phase.ReadingResponse?
  }

  function OnUpstreamReadable(setup: Setup, e: Entry, k: Kernel): Next {
    if AwaitsUpstream(e.conn) then AfterRead(setup, e, ReadOf(setup, k), k.registersClient) else Stays(e)
  }

  function AfterRead(setup: Setup, e: Entry, result: ReadResult, registers: bool): Next
    requires e.conn.phase.Proxying?
  {
    if result == Data("") then Leaves(UpstreamEnded, e.log)
    else if result.Data? then
      var relayed := Relayed(e, result.bytes);
      if registers then Stays(relayed) else Leaves(Aborted, relayed.log)
    else if result.ReadFailed? then Fail(setup, e, Exchange.ResponseFailed, registers)
    else Stays(e.(log := e.log.(upstreamArmed := true)))
  }

  /** Bytes of the response have been taken over for the client. */
  function Relayed(e: Entry, bytes: Bytes): Entry
    requires e.conn.phase.Proxying?
  {
    var p := e.conn.phase.proxy.(responseStarted := true);
    e.(conn := e.conn.(writeBuffer := bytes, writeOffset := 0, phase := Proxying(p)),
       log := e.log.(fromUpstream := e.log.fromUpstream + bytes, clientArmed := true, writesSpent := false,
                     upstreamArmed := false))
  }

  // ---------------------------------------------------------------- whole events

  /** What the kernel reports about one registered socket, and for which occupation of its slot it was registered. */
  datatype ReadyEvent = ReadyEvent(
    token: nat,
    occupation: nat,
    readable: bool,
    writable: bool,
    error: bool,
    readClosed: bool,
    writeClosed: bool)
  {
    predicate Closed() { readClosed || writeClosed }
  }

  /** The first is done; the second follows if the connection is still there. */
  function Then(first: Next, second: Entry -> Next): Next {
    if first.Stays? then second(first.entry) else first
  }

  /** The client hung up in some direction: what is queued may still go out, but nothing else keeps the connection. */
  function OnClientClosed(e: Entry): Next { if e.conn.Drained() then Leaves(Aborted, e.log) else Stays(e) }

  /** The upstream's socket was closed in some direction; only reading tells whether it is the end. */
  function OnUpstreamClosed(e: Entry): Next { Stays(e.(upstreamReadQueued := true)) }

  predicate WriteInRange(e: Entry) { e.conn.writeOffset <= |e.conn.writeBuffer| }

  predicate RequestInRange(e: Entry) {
    e.conn.phase.Proxying? ==> e.conn.phase.proxy.requestOffset <= |e.conn.phase.proxy.requestBuffer|
  }

  ghost predicate ReadInOrder(e: Entry) { PendingOk(PendingOf(e.conn.phase)) }

  /** The parts of a client event, in order; by the second the kernel may have changed its mind (`later`). */
  ghost function ClientWrite(e: Entry, draining: bool, event: ReadyEvent, k: Kernel): Next {
    if event.writable && WriteInRange(e) then OnWritable(e, draining, k) else Stays(e)
  }

  ghost function ClientRead(setup: Setup, e: Entry, draining: bool, event: ReadyEvent, k: Kernel): Next {
    if event.readable && !draining && ReadInOrder(e) then OnReadable(setup, e, k) else Stays(e)
  }

  ghost function ClientClose(e: Entry, event: ReadyEvent): Next {
    if event.Closed() then OnClientClosed(e) else Stays(e)
  }

  ghost function OnClientEvent(
      setup: Setup, e: Entry, draining: bool, event: ReadyEvent, k: Kernel, later: Kernel): Next {
    if event.error then Leaves(Aborted, e.log)
    else
      var written := ClientWrite(e, draining, event, k);
      var read := Then(written, w => ClientRead(setup, w, draining, event, later));
      Then(read, r => ClientClose(r, event))
  }

  ghost function UpstreamWrite(setup: Setup, e: Entry, event: ReadyEvent, k: Kernel): Next {
    if event.writable && RequestInRange(e) then OnUpstreamWritable(setup, e, k) else Stays(e)
  }

  ghost function UpstreamRead(setup: Setup, e: Entry, event: ReadyEvent, k: Kernel): Next {
    if event.readable then OnUpstreamReadable(setup, e, k) else Stays(e)
  }

  ghost function UpstreamClose(e: Entry, event: ReadyEvent): Next {
    if event.Closed() then OnUpstreamClosed(e) else Stays(e)
  }

  ghost function OnUpstreamEvent(setup: Setup, e: Entry, event: ReadyEvent, k: Kernel, later: Kernel): Next {
    if !e.conn.phase.Proxying? then Stays(e)
    else if event.error then Fail(setup, e, Exchange.ConnectionFailed, k.registersClient)
    else
      var written := UpstreamWrite(setup, e, event, k);
      var read := Then(written, w => UpstreamRead(setup, w, event, later));
      Then(read, r => UpstreamClose(r, event))
  }

  /** What the worker does on its own at the top of its loop, to the connections for which it is time. */
  datatype Chore = ExpireResolution | ExpireProxy | CloseIdle | PumpStream

  function OnChore(setup: Setup, e: Entry, chore: Chore, k: Kernel): Next {
    match chore
    case ExpireResolution =>
      if !e.conn.phase.Resolving? then Stays(e)
      else Respond(setup, e, setup.render(Exchange.TimedOut(Exchange.ResolvingPhase)), k.registersClient)
    case ExpireProxy =>
      if !e.conn.phase.Proxying? then Stays(e)
      else Fail(setup, e, Exchange.TimedOut(Waiting(e.conn.phase.proxy.phase)), k.registersClient)
    case CloseIdle => if HandlesRequest(e.conn.phase) then Stays(e) else Leaves(Aborted, e.log)
    case PumpStream =>
      if e.conn.staticStream.Some? && e.conn.Drained() then NextChunk(e, k.ready, k.registersClient) else Stays(e)
  }

  // ---------------------------------------------------------------- the invariant

  /** Nothing has gone through. */
  predicate Untouched(log: Log) {
    log.toClient == "" && log.fromUpstream == "" && log.toUpstream == "" && log.responses == []
  }

  /** What the client has yet to get of the response that is being written. */
  function Unsent(e: Entry): Bytes
    requires e.conn.writeOffset <= |e.conn.writeBuffer|
  {
    e.conn.writeBuffer[e.conn.writeOffset..] + Rest(e.conn.staticStream)
  }

  /** What a connection's record says about what went through it. A response of the server's own that nothing has
      displaced is what the client has of it and what is left. */
  ghost predicate Conserves(setup: Setup, e: Entry) {
    && e.conn.writeOffset <= |e.conn.writeBuffer|
    && (e.log.fromUpstream != "" ==> e.log.responses == [])
    && match e.conn.phase
       case Reading(pending) =>
         && PendingOk(pending) && e.conn.writeBuffer == "" && e.conn.staticStream == None && Untouched(e.log)
       case Resolving(request) =>
         && request != "" && e.conn.writeBuffer == "" && e.conn.staticStream == None && Untouched(e.log)
       case WritingResponse =>
         && e.log.fromUpstream == "" && e.log.responses != []
         && (|e.log.responses| == 1 ==> e.log.responses[0] == e.log.toClient + Unsent(e))
       case Proxying(p) =>
         && e.conn.staticStream == None && e.log.responses == []
         && p.requestOffset <= |p.requestBuffer| && e.log.toUpstream == p.requestBuffer[..p.requestOffset]
         && (p.phase.ReadingResponse? <==> p.requestOffset == |p.requestBuffer|)
         && (p.responseStarted <==> e.log.fromUpstream != "") && (!p.responseStarted ==> e.conn.writeBuffer == "")
         && (!p.phase.ReadingResponse? ==> e.conn.writeBuffer == "" && e.log.fromUpstream == "")
         && e.log.fromUpstream == e.log.toClient + e.conn.writeBuffer[e.conn.writeOffset..]
         && |e.conn.writeBuffer| <= Taken(READ_SIZE, setup.maxWrite)
  }

  /** Somebody will come back to a connection with work left: the kernel owes an edge, or the worker has queued it; a
      name is waited for anyway. The exceptions are a client whose request is being read, or whose response is relayed,
      and where the last loop on its socket stopped because its budget was used up. */
  ghost predicate WakesUp(e: Entry) {
    match e.conn.phase
    case Reading(_) => e.log.readArmed || e.log.readsSpent
    case Resolving(_) => true
    case WritingResponse => !e.conn.Drained() ==> e.log.clientArmed || e.writeQueued
    case Proxying(p) =>
      && (!e.conn.Drained() ==> e.log.clientArmed || e.writeQueued || e.log.writesSpent)
      && UpstreamWakes(e, p.phase)
  }

  ghost predicate UpstreamWakes(e: Entry, phase: ProxyPhase) {
    match phase
    case Connecting => e.log.upstreamArmed
    case WritingRequest => e.log.upstreamArmed || e.upstreamWriteQueued
    case ReadingResponse => e.conn.writeBuffer == "" ==> e.log.upstreamArmed || e.upstreamReadQueued
  }

  /** While the worker drains, only connections with something to send are left. */
  ghost predicate HasOutput(e: Entry) { e.conn.staticStream.Some? || !e.conn.Drained() }

  ghost predicate Ok(setup: Setup, e: Entry, draining: bool) {
    Conserves(setup, e) && WakesUp(e) && (draining ==> HasOutput(e))
  }

  /** How a connection may end: the upstream's end, or a shutdown, only when nothing received is unsent; a response of
      the server's own only when nothing came from an upstream and, unless it was displaced, the client has all of it;
      and in any case the client has a prefix of what came, or of the response. */
  ghost predicate EndsWell(cause: Cause, log: Log) {
    && (cause.UpstreamEnded? || cause.CutShort? ==> log.toClient == log.fromUpstream)
    && (cause.Delivered? ==> log.fromUpstream == "" && log.responses != [])
    && (cause.Delivered? && |log.responses| == 1 ==> log.toClient == log.responses[0])
    && (|log.responses| == 1 ==> log.toClient <= log.responses[0])
    && (log.fromUpstream != "" ==> log.toClient <= log.fromUpstream && log.responses == [])
  }

  /** What can never be taken back. */
  ghost predicate Extends(a: Log, b: Log) {
    && a.toClient <= b.toClient && a.fromUpstream <= b.fromUpstream && a.toUpstream <= b.toUpstream
    && a.responses <= b.responses
  }

  ghost predicate Keeps(setup: Setup, e: Entry, next: Next, draining: bool) {
    match next
    case Stays(after) =>
      Ok(setup, after, draining) && Extends(e.log, after.log) && after.conn.generation == e.conn.generation
    case Leaves(cause, log) => EndsWell(cause, log) && Extends(e.log, log) && (cause.CutShort? ==> draining)
    case Fails => true
  }

  // ---------------------------------------------------------------- every step keeps it

  lemma ConservedEnds(setup: Setup, e: Entry)
    requires Conserves(setup, e)
    ensures EndsWell(Aborted, e.log)
    ensures e.conn.phase.Proxying? && e.conn.Drained() ==> e.log.toClient == e.log.fromUpstream
  {
    if e.conn.phase.Proxying? && e.conn.Drained() {
      assert e.conn.writeBuffer[e.conn.writeOffset..] == "";
      assert e.log.toClient + "" == e.log.toClient;
    }
  }

  lemma RespondKeeps(setup: Setup, e: Entry, response: Bytes, registers: bool, draining: bool)
    requires e.log.fromUpstream == "" && response != "" && (e.log.responses == [] ==> e.log.toClient == "")
    requires EndsWell(Aborted, e.log)
    ensures Keeps(setup, e, Respond(setup, e, response, registers), draining)
  {
    assert response[0..] == response && setup.render(Exchange.ResponseTooLarge)[0..] ==
      setup.render(Exchange.ResponseTooLarge);
    EmptyEnds(response, setup.render(Exchange.ResponseTooLarge), Rest(e.conn.staticStream));
  }

  lemma EmptyEnds(a: Bytes, b: Bytes, c: Bytes)
    ensures "" + a == a && "" + (a + c) == a + c && b + "" == b && a + "" == a
  {
  }

  lemma FailKeeps(setup: Setup, e: Entry, notice: Notice, registers: bool, draining: bool)
    requires Conserves(setup, e) && e.conn.phase.Proxying?
    ensures Keeps(setup, e, Fail(setup, e, notice, registers), draining)
  {
    ConservedEnds(setup, e);
    var p := e.conn.phase.proxy;
    if !p.responseStarted && e.conn.writeBuffer == "" {
      var detached :=
        e.(conn := e.conn.(phase := WritingResponse), upstreamWriteQueued := false, upstreamReadQueued := false);
      RespondKeeps(setup, detached, setup.render(notice), registers, draining);
    }
  }

  lemma OnRequestKeeps(setup: Setup, e: Entry, head: RequestHead, body: Bytes, plan: Routing, registers: bool)
    requires Conserves(setup, e) && e.conn.phase.Reading?
    ensures Keeps(setup, e, OnRequest(setup, e, head, body, plan, registers), false)
  {
  }

  lemma OnReadsKeeps(setup: Setup, e: Entry, end: ReadEnd, plan: Routing, registers: bool)
    requires Ok(setup, e, false) && !HandlesRequest(e.conn.phase)
    requires (end.Waits? || end.Stops? ==> PendingOk(end.pending)) && (end.Completes? ==> e.conn.phase.Reading?)
    ensures Keeps(setup, e, OnReads(setup, e, end, plan, registers), false)
  {
    ConservedEnds(setup, e);
    if end.Completes? {
      var reading := e.(conn := e.conn.(readBuffer := end.buffer, phase := Reading(None)));
      OnRequestKeeps(setup, reading, end.head, end.body, plan, registers);
    } else if end.Refuses? {
      RespondKeeps(setup, e.(conn := e.conn.(readBuffer := end.buffer)), setup.render(Exchange.Refused(end.refusal)),
        registers, false);
    }
  }

  lemma OnReadableKeeps(setup: Setup, e: Entry, k: Kernel)
    requires Ok(setup, e, false)
    ensures Keeps(setup, e, OnReadable(setup, e, k), false)
  {
    ConservedEnds(setup, e);
    if !HandlesRequest(e.conn.phase) {
      OnReadsKeeps(setup, e, ReadsOf(setup, e.conn, k.clientReads), k.plan, k.registersClient);
    }
  }

  lemma BytesMove(sent: Bytes, buffer: Bytes, from: nat, offset: nat, rest: Bytes)
    requires from <= offset <= |buffer|
    ensures sent + buffer[from..] == (sent + buffer[from..offset]) + buffer[offset..]
    ensures sent + (buffer[from..] + rest) == (sent + buffer[from..offset]) + (buffer[offset..] + rest)
  {
    assert buffer[from..] == buffer[from..offset] + buffer[offset..];
  }

  lemma IdleSent(setup: Setup, e: Entry, end: WriteEnd)
    requires Conserves(setup, e) && (e.conn.phase.Reading? || e.conn.phase.Resolving?) && e.conn.writeBuffer == ""
    ensures Conserves(setup, Sent(e, 0, end))
  {
    assert "" + "" == "";
  }

  lemma ResponseSent(setup: Setup, e: Entry, offset: nat, end: WriteEnd)
    requires Conserves(setup, e) && e.conn.writeOffset <= offset <= |e.conn.writeBuffer|
      && e.conn.phase.WritingResponse?
    ensures Conserves(setup, Sent(e, offset, end))
  {
    var sent := Sent(e, offset, end);
    BytesMove(e.log.toClient, e.conn.writeBuffer, e.conn.writeOffset, offset, Rest(e.conn.staticStream));
    assert sent.log.toClient + Unsent(sent) == e.log.toClient + Unsent(e);
  }

  lemma RelaySent(setup: Setup, e: Entry, offset: nat, end: WriteEnd)
    requires Conserves(setup, e) && e.conn.writeOffset <= offset <= |e.conn.writeBuffer| && e.conn.phase.Proxying?
    ensures Conserves(setup, Sent(e, offset, end))
  {
    BytesMove(e.log.toClient, e.conn.writeBuffer, e.conn.writeOffset, offset, "");
  }

  /** Sending moves bytes from the buffer to the client, in order. */
  lemma SentConserves(setup: Setup, e: Entry, offset: nat, end: WriteEnd)
    requires Conserves(setup, e) && e.conn.writeOffset <= offset <= |e.conn.writeBuffer|
    ensures Conserves(setup, Sent(e, offset, end)) && Extends(e.log, Sent(e, offset, end).log)
  {
    if e.conn.phase.WritingResponse? {
      ResponseSent(setup, e, offset, end);
    } else if e.conn.phase.Proxying? {
      RelaySent(setup, e, offset, end);
    } else {
      IdleSent(setup, e, end);
    }
  }

  lemma NextChunkKeeps(setup: Setup, e: Entry, ready: bool, registers: bool, draining: bool)
    requires Conserves(setup, e) && e.conn.staticStream.Some? && e.conn.Drained()
    ensures Keeps(setup, e, NextChunk(e, ready, registers), draining)
  {
  }

  lemma OnDrainedKeeps(setup: Setup, e: Entry, draining: bool, ready: bool, registers: bool)
    requires Conserves(setup, e) && e.conn.Drained()
    requires e.conn.phase.Proxying? ==> UpstreamWakes(e, e.conn.phase.proxy.phase)
    requires draining ==> e.conn.phase.WritingResponse? || e.conn.phase.Proxying?
    ensures Keeps(setup, e, OnDrained(e, draining, ready, registers), draining)
  {
    ConservedEnds(setup, e);
    if e.conn.staticStream.Some? {
      NextChunkKeeps(setup, e, ready, registers, draining);
    }
  }

  /** It does not matter that the connection has just been taken from the queue. */
  lemma OnWritableKeeps(setup: Setup, e: Entry, draining: bool, k: Kernel)
    requires Ok(setup, e.(writeQueued := true), draining)
    ensures Keeps(setup, e, OnWritable(e, draining, k), draining)
  {
    var (offset, end) := Writes(e.conn.writeOffset, |e.conn.writeBuffer|, k.clientWrites, MAX_WRITES_PER_EVENT);
    SentConserves(setup, e, offset, end);
    AfterWritesKeeps(setup, e, Sent(e, offset, end), end, draining, k);
  }

  lemma AfterWritesKeeps(setup: Setup, e: Entry, sent: Entry, end: WriteEnd, draining: bool, k: Kernel)
    requires Conserves(setup, sent) && Extends(e.log, sent.log) && sent.conn.generation == e.conn.generation
    requires (sent.conn.Drained() <==> end.AllWritten?) && (end.Blocked? ==> sent.log.clientArmed)
    requires end.Spent? ==> sent.log.writesSpent
    requires sent.conn.phase.Proxying? ==> UpstreamWakes(sent, sent.conn.phase.proxy.phase)
    requires sent.conn.phase.Reading? ==> sent.conn.Drained()
    requires draining ==> sent.conn.phase.WritingResponse? || sent.conn.phase.Proxying?
    ensures Keeps(setup, e, AfterWrites(sent, end, draining, k), draining)
  {
    ConservedEnds(setup, sent);
    if end.AllWritten? {
      OnDrainedKeeps(setup, sent, draining, k.ready, k.registersClient);
      KeepsTransitive(setup, e, sent, OnDrained(sent, draining, k.ready, k.registersClient), draining);
    }
  }

  lemma KeepsTransitive(setup: Setup, e: Entry, middle: Entry, next: Next, draining: bool)
    requires Extends(e.log, middle.log) && middle.conn.generation == e.conn.generation
    requires Keeps(setup, middle, next, draining)
    ensures Keeps(setup, e, next, draining)
  {
  }

  lemma OnResolvedKeeps(setup: Setup, e: Entry, answer: Option<seq<nat>>, identified: bool, k: Kernel, draining: bool)
    requires Ok(setup, e, draining)
    ensures Keeps(setup, e, OnResolved(setup, e, answer, identified, k), draining)
  {
    if e.conn.phase.Resolving? && answer.Some? && answer.value != [] {
      RespondKeeps(setup, e, setup.render(Exchange.ConnectionFailed), k.registersClient, draining);
    }
  }

  /** A proxied connection whose upstream has not answered, after a bounded loop of writes to it. */
  ghost predicate HasForwarded(e: Entry, end: WriteEnd) {
    && e.conn.phase.Proxying? && e.conn.phase.proxy.phase.WritingRequest? && !e.conn.phase.proxy.responseStarted
    && e.log.fromUpstream == "" && e.log.toClient == "" && e.log.responses == []
    && e.conn.writeBuffer == "" && e.conn.writeOffset == 0 && e.conn.staticStream == None
    && RequestInRange(e)
    && e.log.toUpstream == e.conn.phase.proxy.requestBuffer[..e.conn.phase.proxy.requestOffset]
    && (end.AllWritten? <==> e.conn.phase.proxy.requestOffset == |e.conn.phase.proxy.requestBuffer|)
    && (end.Blocked? ==> e.log.upstreamArmed)
  }

  lemma PrefixGrows(s: Bytes, i: nat, j: nat)
    requires i <= j <= |s|
    ensures s[..j] == s[..i] + s[i..j]
  {
  }

  lemma ForwardedConserves(setup: Setup, e: Entry, offset: nat, end: WriteEnd)
    requires Conserves(setup, e) && e.conn.phase.Proxying? && !e.conn.phase.proxy.phase.ReadingResponse?
    requires e.conn.phase.proxy.requestOffset <= offset <= |e.conn.phase.proxy.requestBuffer|
    requires end.AllWritten? <==> offset == |e.conn.phase.proxy.requestBuffer|
    ensures var sent := Forwarded(e, offset, end.Blocked?);
            HasForwarded(sent, end) && Extends(e.log, sent.log) && sent.conn.generation == e.conn.generation
    ensures !HasOutput(e)
  {
    var p := e.conn.phase.proxy;
    PrefixGrows(p.requestBuffer, p.requestOffset, offset);
  }

  lemma AfterForwardingKeeps(setup: Setup, e: Entry, end: WriteEnd, k: Kernel)
    requires HasForwarded(e, end)
    ensures Keeps(setup, e, AfterForwarding(setup, e, end, k), false)
  {
  }

  lemma OnUpstreamWritableKeeps(setup: Setup, e: Entry, k: Kernel, draining: bool)
    requires Ok(setup, e.(upstreamWriteQueued := true), draining)
    ensures Keeps(setup, e, OnUpstreamWritable(setup, e, k), draining)
  {
    if e.conn.phase.Proxying? && !e.conn.phase.proxy.phase.ReadingResponse? {
      if e.conn.phase.proxy.phase.Connecting? && !k.upstreamConnected {
        FailKeeps(setup, e, Exchange.ConnectionFailed, k.registersClient, draining);
      } else {
        ForwardingKeeps(setup, e, k, draining);
      }
    }
  }

  lemma ForwardingKeeps(setup: Setup, e: Entry, k: Kernel, draining: bool)
    requires Conserves(setup, e) && e.conn.phase.Proxying? && !e.conn.phase.proxy.phase.ReadingResponse?
    requires draining ==> HasOutput(e)
    ensures var p := e.conn.phase.proxy;
            var r := Writes(p.requestOffset, |p.requestBuffer|, k.upstreamWrites, MAX_WRITES_PER_EVENT);
            Keeps(setup, e, AfterForwarding(setup, Forwarded(e, r.0, r.1.Blocked?), r.1, k), draining)
  {
    var p := e.conn.phase.proxy;
    var (offset, end) := Writes(p.requestOffset, |p.requestBuffer|, k.upstreamWrites, MAX_WRITES_PER_EVENT);
    var sent := Forwarded(e, offset, end.Blocked?);
    ForwardedConserves(setup, e, offset, end);
    AfterForwardingKeeps(setup, sent, end, k);
    KeepsTransitive(setup, e, sent, AfterForwarding(setup, sent, end, k), draining);
  }

  lemma RelayedKeeps(setup: Setup, e: Entry, bytes: Bytes, draining: bool)
    requires Conserves(setup, e) && AwaitsUpstream(e.conn) && 0 < |bytes| <= Taken(READ_SIZE, setup.maxWrite)
    ensures Keeps(setup, e, Stays(Relayed(e, bytes)), draining) && EndsWell(Aborted, Relayed(e, bytes).log)
  {
    ConservedEnds(setup, e);
    var relayed := Relayed(e, bytes);
    assert relayed.conn.writeBuffer[0..] == bytes;
  }

  lemma AfterReadKeeps(setup: Setup, e: Entry, result: ReadResult, registers: bool)
    requires Conserves(setup, e) && AwaitsUpstream(e.conn)
    requires result.Data? ==> |result.bytes| <= Taken(READ_SIZE, setup.maxWrite)
    ensures Keeps(setup, e, AfterRead(setup, e, result, registers), false)
  {
    ConservedEnds(setup, e);
    if result.Data? && result.bytes != "" {
      RelayedKeeps(setup, e, result.bytes, false);
    } else if result.ReadFailed? {
      FailKeeps(setup, e, Exchange.ResponseFailed, registers, false);
    }
  }

  lemma OnUpstreamReadableKeeps(setup: Setup, e: Entry, k: Kernel, draining: bool)
    requires Ok(setup, e.(upstreamReadQueued := true), draining)
    ensures Keeps(setup, e, OnUpstreamReadable(setup, e, k), draining)
  {
    if AwaitsUpstream(e.conn) {
      AfterReadKeeps(setup, e, ReadOf(setup, k), k.registersClient);
    } else {
      IdleUpstreamWakes(setup, e, draining);
    }
  }

  lemma IdleUpstreamWakes(setup: Setup, e: Entry, draining: bool)
    requires Ok(setup, e.(upstreamReadQueued := true), draining) && !AwaitsUpstream(e.conn)
    ensures Ok(setup, e, draining)
  {
  }

  /** The end of the upstream's response closes the client only when nothing received is unsent, in any order state. */
  lemma UpstreamEnd(setup: Setup, e: Entry, k: Kernel, draining: bool)
    requires Ok(setup, e.(upstreamReadQueued := true), draining)
    requires OnUpstreamReadable(setup, e, k).Leaves? && OnUpstreamReadable(setup, e, k).cause.UpstreamEnded?
    ensures ReadOf(setup, k) == Data("") && e.log.toClient == e.log.fromUpstream
    ensures OnUpstreamReadable(setup, e, k).log == e.log
  {
    OnUpstreamReadableKeeps(setup, e, k, draining);
  }

  lemma OnChoreKeeps(setup: Setup, e: Entry, chore: Chore, k: Kernel, draining: bool)
    requires Ok(setup, e, draining)
    ensures Keeps(setup, e, OnChore(setup, e, chore, k), draining)
  {
    ConservedEnds(setup, e);
    if chore.ExpireProxy? && e.conn.phase.Proxying? {
      FailKeeps(setup, e, Exchange.TimedOut(Waiting(e.conn.phase.proxy.phase)), k.registersClient, draining);
    } else if chore.PumpStream? && e.conn.staticStream.Some? && e.conn.Drained() {
      NextChunkKeeps(setup, e, k.ready, k.registersClient, draining);
    }
  }

  lemma ThenKeeps(setup: Setup, e: Entry, first: Next, second: Entry -> Next, draining: bool)
    requires Keeps(setup, e, first, draining)
    requires first.Stays? ==> Keeps(setup, first.entry, second(first.entry), draining)
    ensures Keeps(setup, e, Then(first, second), draining)
  {
    if first.Stays? {
      KeepsTransitive(setup, e, first.entry, second(first.entry), draining);
    }
  }

  lemma StaysKeeps(setup: Setup, e: Entry, draining: bool)
    requires Ok(setup, e, draining)
    ensures Keeps(setup, e, Stays(e), draining)
  {
  }

  lemma ClientPartsKeep(setup: Setup, e: Entry, draining: bool, event: ReadyEvent, k: Kernel)
    requires Ok(setup, e, draining)
    ensures Keeps(setup, e, ClientWrite(e, draining, event, k), draining)
    ensures Keeps(setup, e, ClientRead(setup, e, draining, event, k), draining)
    ensures Keeps(setup, e, ClientClose(e, event), draining)
  {
    StaysKeeps(setup, e, draining);
    ConservedEnds(setup, e);
    if event.writable {
      OnWritableKeeps(setup, e, draining, k);
    }
    if event.readable && !draining {
      OnReadableKeeps(setup, e, k);
    }
  }

  lemma OnClientEventKeeps(setup: Setup, e: Entry, draining: bool, event: ReadyEvent, k: Kernel, later: Kernel)
    requires Ok(setup, e, draining)
    ensures Keeps(setup, e, OnClientEvent(setup, e, draining, event, k, later), draining)
  {
    ConservedEnds(setup, e);
    if !event.error {
      var written := ClientWrite(e, draining, event, k);
      ClientPartsKeep(setup, e, draining, event, k);
      if written.Stays? {
        ClientPartsKeep(setup, written.entry, draining, event, later);
      }
      var read := Then(written, w => ClientRead(setup, w, draining, event, later));
      ThenKeeps(setup, e, written, w => ClientRead(setup, w, draining, event, later), draining);
      if read.Stays? {
        ClientPartsKeep(setup, read.entry, draining, event, later);
      }
      ThenKeeps(setup, e, read, r => ClientClose(r, event), draining);
    }
  }

  lemma UpstreamWriteKeeps(setup: Setup, e: Entry, event: ReadyEvent, k: Kernel, draining: bool)
    requires Ok(setup, e, draining)
    ensures Keeps(setup, e, UpstreamWrite(setup, e, event, k), draining)
  {
    if event.writable && RequestInRange(e) {
      QueuedIsOk(setup, e, draining);
      OnUpstreamWritableKeeps(setup, e, k, draining);
    } else {
      StaysKeeps(setup, e, draining);
    }
  }

  lemma UpstreamReadKeeps(setup: Setup, e: Entry, event: ReadyEvent, k: Kernel, draining: bool)
    requires Ok(setup, e, draining)
    ensures Keeps(setup, e, UpstreamRead(setup, e, event, k), draining)
  {
    if event.readable {
      QueuedIsOk(setup, e, draining);
      OnUpstreamReadableKeeps(setup, e, k, draining);
    } else {
      StaysKeeps(setup, e, draining);
    }
  }

  lemma UpstreamCloseKeeps(setup: Setup, e: Entry, event: ReadyEvent, draining: bool)
    requires Ok(setup, e, draining)
    ensures Keeps(setup, e, UpstreamClose(e, event), draining)
  {
    QueuedIsOk(setup, e, draining);
    StaysKeeps(setup, e, draining);
  }

  lemma UpstreamPartsKeep(setup: Setup, e: Entry, event: ReadyEvent, k: Kernel, draining: bool)
    requires Ok(setup, e, draining)
    ensures Keeps(setup, e, UpstreamWrite(setup, e, event, k), draining)
    ensures Keeps(setup, e, UpstreamRead(setup, e, event, k), draining)
    ensures Keeps(setup, e, UpstreamClose(e, event), draining)
  {
    UpstreamWriteKeeps(setup, e, event, k, draining);
    UpstreamReadKeeps(setup, e, event, k, draining);
    UpstreamCloseKeeps(setup, e, event, draining);
  }

  lemma OnUpstreamEventKeeps(setup: Setup, e: Entry, event: ReadyEvent, k: Kernel, later: Kernel, draining: bool)
    requires Ok(setup, e, draining)
    ensures Keeps(setup, e, OnUpstreamEvent(setup, e, event, k, later), draining)
  {
    StaysKeeps(setup, e, draining);
    if e.conn.phase.Proxying? && event.error {
      FailKeeps(setup, e, Exchange.ConnectionFailed, k.registersClient, draining);
    } else if e.conn.phase.Proxying? {
      var written := UpstreamWrite(setup, e, event, k);
      UpstreamPartsKeep(setup, e, event, k, draining);
      if written.Stays? {
        UpstreamPartsKeep(setup, written.entry, event, later, draining);
      }
      var read := Then(written, w => UpstreamRead(setup, w, event, later));
      ThenKeeps(setup, e, written, w => UpstreamRead(setup, w, event, later), draining);
      if read.Stays? {
        UpstreamPartsKeep(setup, read.entry, event, later, draining);
      }
      ThenKeeps(setup, e, read, r => UpstreamClose(r, event), draining);
    }
  }

  /** Having a place in a queue never does harm. */
  lemma QueuedIsOk(setup: Setup, e: Entry, draining: bool)
    requires Ok(setup, e, draining)
    ensures Ok(setup, e.(writeQueued := true), draining) && Ok(setup, e.(upstreamWriteQueued := true), draining)
    ensures Ok(setup, e.(upstreamReadQueued := true), draining)
  {
    SameRecord(setup, e, e.(writeQueued := true));
    SameRecord(setup, e, e.(upstreamWriteQueued := true));
    SameRecord(setup, e, e.(upstreamReadQueued := true));
  }

  lemma SameRecord(setup: Setup, e: Entry, f: Entry)
    requires Conserves(setup, e) && f.conn == e.conn && f.log == e.log
    ensures Conserves(setup, f)
  {
    if e.conn.phase.WritingResponse? {
      assert Unsent(f) == Unsent(e);
    }
  }

  // ---------------------------------------------------------------- wake-ups of the client

  /** Exactly when a client is left with unsent bytes and nobody to come back to it: a proxied connection whose writes
      used up their budget, and which was not queued before. */
  lemma WhenTheClientIsForgotten(setup: Setup, e: Entry, draining: bool, k: Kernel)
    requires Conserves(setup, e)
    ensures var next := OnWritable(e, draining, k);
            var end := Writes(e.conn.writeOffset, |e.conn.writeBuffer|, k.clientWrites, MAX_WRITES_PER_EVENT).1;
            next.Stays? && !next.entry.conn.Drained() ==>
              (Forgotten(next.entry) <==> e.conn.phase.Proxying? && end.Spent? && !e.writeQueued)
  {
  }

  ghost predicate Forgotten(e: Entry) { !e.conn.Drained() && !e.log.clientArmed && !e.writeQueued }

  /** What a worker that is not draining may do to one connection. */
  datatype Deed = ReadClient | WriteClient | Resolve(answer: Option<seq<nat>>) | WriteUpstream | ReadUpstream | Pump

  ghost function Do(setup: Setup, e: Entry, deed: Deed, k: Kernel): Next {
    match deed
    case ReadClient => if ReadInOrder(e) then OnReadable(setup, e, k) else Stays(e)
    case WriteClient => if WriteInRange(e) then OnWritable(e, false, k) else Stays(e)
    case Resolve(answer) => OnResolved(setup, e, answer, true, k)
    case WriteUpstream => if RequestInRange(e) then OnUpstreamWritable(setup, e, k) else Stays(e)
    case ReadUpstream => OnUpstreamReadable(setup, e, k)
    case Pump => OnChore(setup, e, PumpStream, k)
  }

  const NEW: Entry := Entry(NewConnection(1, 0), EMPTY_LOG, false, false, false)

  /** A kernel that delivers a whole request, connects, takes the whole upstream request, answers with seventeen bytes,
      and lets the client have one byte at a time. */
  function Dribbling(request: Bytes, plan: Routing, forwarded: nat): Kernel {
    Kernel(seq(16, _ => Written(1)), [Data(request)], true, [Written(forwarded)], [Data(Seventeen())], plan, false,
           true, true)
  }

  function Seventeen(): (s: Bytes)
    ensures |s| == 17
  {
    seq(17, _ => 'x')
  }

  /** It does happen, to a new connection of any worker that forwards some request: sixteen writes of one byte each
      leave the seventeenth byte of the response behind. */
  lemma ForgottenClient(
      setup: Setup, bytes: Bytes, head: RequestHead, body: Bytes, url: Bytes, request: Exchange.Piece)
    returns (resolving: Entry, connecting: Entry, reading: Entry, relayed: Entry, forgotten: Entry)
    requires setup.maxWrite >= 17 && 0 < |bytes| <= READ_SIZE
    requires Ingest(setup.maxRead, "", None, bytes) == Ready(head, body)
    requires setup.forward(url, head, body) == Some(request) && |request| <= setup.maxRead
    ensures var k := Dribbling(bytes, Exchange.Forward(url, true), |request|);
            && Do(setup, NEW, ReadClient, k) == Stays(resolving)
            && Do(setup, resolving, Resolve(Some([0])), k) == Stays(connecting)
            && Do(setup, connecting, WriteUpstream, k) == Stays(reading)
            && Do(setup, reading, ReadUpstream, k) == Stays(relayed)
            && Do(setup, relayed, WriteClient, k) == Stays(forgotten)
            && forgotten.conn.phase.Proxying? && Forgotten(forgotten)
  {
    var k := Dribbling(bytes, Exchange.Forward(url, true), |request|);
    resolving := Resolved(setup, bytes, head, body, url, request, k);
    connecting := Connected(setup, resolving, request, k);
    reading := Requested(setup, connecting, request, k);
    relayed := Answered(setup, reading, k);
    forgotten := Dribbled(setup, relayed, k);
  }

  lemma Resolved(
      setup: Setup, bytes: Bytes, head: RequestHead, body: Bytes, url: Bytes, request: Exchange.Piece, k: Kernel)
    returns (e: Entry)
    requires 0 < |bytes| <= READ_SIZE && Ingest(setup.maxRead, "", None, bytes) == Ready(head, body)
    requires setup.forward(url, head, body) == Some(request) && |request| <= setup.maxRead
    requires k.clientReads == [Data(bytes)] && k.plan == Exchange.Forward(url, true)
    ensures Do(setup, NEW, ReadClient, k) == Stays(e)
    ensures e.conn.phase == Resolving(request) && !e.writeQueued && e.conn.writeBuffer == ""
  {
    OneRead(setup.maxRead, bytes, head, body);
    e := NEW.(conn := NEW.conn.(readBuffer := bytes, phase := Resolving(request)));
    RequestResolves(setup, Completes(bytes, head, body), url, request, k.registersClient, e);
  }

  lemma RequestResolves(
      setup: Setup, end: ReadEnd, url: Bytes, request: Exchange.Piece, registers: bool, e: Entry)
    requires end.Completes? && setup.forward(url, end.head, end.body) == Some(request) && |request| <= setup.maxRead
    requires e == NEW.(conn := NEW.conn.(readBuffer := end.buffer, phase := Resolving(request)))
    ensures OnReads(setup, NEW, end, Exchange.Forward(url, true), registers) == Stays(e)
  {
  }

  lemma OneRead(limit: nat, bytes: Bytes, head: RequestHead, body: Bytes)
    requires 0 < |bytes| <= READ_SIZE && Ingest(limit, "", None, bytes) == Ready(head, body)
    ensures ReadLoop(limit, "", None, true, [Data(bytes)], MAX_READS_PER_EVENT, false) == Completes(bytes, head, body)
  {
    assert "" + bytes == bytes;
  }

  lemma Connected(setup: Setup, e: Entry, request: Exchange.Piece, k: Kernel) returns (after: Entry)
    requires e.conn.phase == Resolving(request) && !e.writeQueued && k.upstreamConnected && k.registersUpstream
    requires e.conn.writeBuffer == ""
    ensures Do(setup, e, Resolve(Some([0])), k) == Stays(after) && !after.writeQueued && after.conn.writeBuffer == ""
    ensures after.conn.phase == Proxying(ProxyState(request, 0, false, Connecting))
  {
    after := OnResolved(setup, e, Some([0]), true, k).entry;
  }

  lemma Requested(setup: Setup, e: Entry, request: Exchange.Piece, k: Kernel) returns (after: Entry)
    requires e.conn.phase == Proxying(ProxyState(request, 0, false, Connecting)) && e.conn.writeBuffer == ""
    requires k.upstreamConnected && k.registersUpstream && k.upstreamWrites == [Written(|request|)] && !e.writeQueued
    ensures Do(setup, e, WriteUpstream, k) == Stays(after) && AwaitsUpstream(after.conn) && !after.writeQueued
  {
    assert Writes(|request|, |request|, k.upstreamWrites[1..], 15) == (|request|, AllWritten);
    assert Writes(0, |request|, k.upstreamWrites, 16) == (|request|, AllWritten);
    after := OnUpstreamWritable(setup, e, k).entry;
  }

  lemma Answered(setup: Setup, e: Entry, k: Kernel) returns (after: Entry)
    requires AwaitsUpstream(e.conn) && k.upstreamReads == [Data(Seventeen())] && k.registersClient
      && setup.maxWrite >= 17
    ensures Do(setup, e, ReadUpstream, k) == Stays(after) && after == Relayed(e, Seventeen())
  {
    assert ReadOf(setup, k) == Data(Seventeen());
    after := Relayed(e, Seventeen());
  }

  lemma Dribbled(setup: Setup, e: Entry, k: Kernel) returns (after: Entry)
    requires |e.conn.writeBuffer| == 17 && e.conn.writeOffset == 0 && e.conn.phase.Proxying? && !e.writeQueued
    requires |k.clientWrites| >= 16 && forall i | 0 <= i < 16 :: k.clientWrites[i] == Written(1)
    ensures Do(setup, e, WriteClient, k) == Stays(after) && after.conn.phase.Proxying? && Forgotten(after)
  {
    SingleBytes(17, 0, k.clientWrites, MAX_WRITES_PER_EVENT);
    assert Writes(e.conn.writeOffset, |e.conn.writeBuffer|, k.clientWrites, MAX_WRITES_PER_EVENT) == (16, Spent);
    after := Sent(e, 16, Spent);
  }

  lemma {:induction false} SingleBytes(length: nat, offset: nat, results: seq<WriteResult>, budget: nat)
    requires offset + budget < length && |results| >= budget
    requires forall i | 0 <= i < budget :: results[i] == Written(1)
    ensures Writes(offset, length, results, budget) == (offset + budget, Spent)
    decreases budget
  {
    if budget > 0 {
      SingleBytes(length, offset + 1, results[1..], budget - 1);
    }
  }

  // ---------------------------------------------------------------- wake-ups of a client that sends its request

  /** As much as one event lets the worker read. */
  const READ_CAPACITY: nat := MAX_READS_PER_EVENT * READ_SIZE

  /** What reads that nothing interrupts get from a socket with these unread bytes, until it is empty. */
  function SocketReads(unread: Bytes): seq<ReadResult> {
    if unread == "" then []
    else
      var n := Taken(READ_SIZE, |unread|);
      [Data(unread[..n])] + SocketReads(unread[n..])
  }

  /** The first of them. */
  function Pieces(unread: Bytes, count: nat): seq<Bytes> {
    if unread == "" || count == 0 then []
    else
      var n := Taken(READ_SIZE, |unread|);
      [unread[..n]] + Pieces(unread[n..], count - 1)
  }

  /** One round of the read loop. */
  lemma LoopReads(
      limit: nat, buffer: Bytes, pending: Option<Pending>, reading: bool, results: seq<ReadResult>, budget: nat,
      dry: bool)
    requires PendingOk(pending) && (!reading ==> pending == None) && budget > 0
    requires results != [] && results[0].Data? && results[0].bytes != ""
    ensures var bytes := Clip(results[0], READ_SIZE).bytes;
            var intake := Ingest(limit, buffer, pending, bytes);
            ReadLoop(limit, buffer, pending, reading, results, budget, dry) ==
              if intake.Rejected? then Refuses(if |buffer + bytes| > limit then buffer
                else buffer + bytes, intake.refusal)
              else if intake.Ready? && reading then Completes(buffer + bytes, intake.head, intake.body)
              else
                ReadLoop(limit, buffer + bytes, if intake.More? && reading then intake.pending else None, reading,
                  results[1..], budget - 1, |bytes| < READ_SIZE)
  {
  }

  /** More than one read's worth is read piece by piece. */
  lemma FullPiece(unread: Bytes, count: nat)
    requires |unread| > READ_SIZE && count > 0
    ensures SocketReads(unread) == [Data(unread[..READ_SIZE])] + SocketReads(unread[READ_SIZE..])
    ensures Pieces(unread, count) == [unread[..READ_SIZE]] + Pieces(unread[READ_SIZE..], count - 1)
  {
  }

  /** One full piece does the same to the loop as to the request being fed. */
  lemma PieceStep(
      limit: nat, buffer: Bytes, pending: Option<Pending>, first: Bytes, rest: seq<ReadResult>, more: seq<Bytes>,
      budget: nat, intake: Intake)
    requires PendingOk(pending) && |first| == READ_SIZE && budget > 0
    requires intake == Ingest(limit, buffer, pending, first)
    ensures var end := ReadLoop(limit, buffer, pending, true, [Data(first)] + rest, budget, false);
            if intake.More?
            then
              PendingOk(intake.pending)
              && end == ReadLoop(limit, intake.buffer, intake.pending, true, rest, budget - 1, false)
            else !end.Stops?
    ensures Feed(limit, buffer, pending, [first] + more) ==
              if intake.More? then Feed(limit, intake.buffer, intake.pending, more) else intake
    ensures intake.More? ==> PendingOk(intake.pending)
  {
    assert ([Data(first)] + rest)[1..] == rest && ([first] + more)[1..] == more;
    LoopReads(limit, buffer, pending, true, [Data(first)] + rest, budget, false);
  }

  /** One read from the socket. */
  lemma SocketStep(
      limit: nat, buffer: Bytes, pending: Option<Pending>, unread: Bytes, rest: Bytes, budget: nat, intake: Intake)
    requires PendingOk(pending) && |unread| > READ_SIZE && budget > 0 && rest == unread[READ_SIZE..]
    requires intake == Ingest(limit, buffer, pending, unread[..READ_SIZE])
    ensures intake.More? ==> PendingOk(intake.pending)
    ensures var end, fed := ReadLoop(limit, buffer, pending, true, SocketReads(unread), budget, false),
              Feed(limit, buffer, pending, Pieces(unread, budget));
            if intake.More?
            then
              && end == ReadLoop(limit, intake.buffer, intake.pending, true, SocketReads(rest), budget - 1, false)
              && fed == Feed(limit, intake.buffer, intake.pending, Pieces(rest, budget - 1))
            else !end.Stops? && !fed.More?
  {
    FullPiece(unread, budget);
    PieceStep(limit, buffer, pending, unread[..READ_SIZE], SocketReads(rest), Pieces(rest, budget - 1), budget, intake);
  }

  lemma {:induction false} SocketLoop(limit: nat, buffer: Bytes, pending: Option<Pending>, unread: Bytes, budget: nat)
    requires PendingOk(pending) && |unread| > budget * READ_SIZE
    ensures var end := ReadLoop(limit, buffer, pending, true, SocketReads(unread), budget, false);
            end.Stops? <==> Feed(limit, buffer, pending, Pieces(unread, budget)).More?
    decreases budget
  {
    if budget > 0 {
      var rest := unread[READ_SIZE..];
      var intake := Ingest(limit, buffer, pending, unread[..READ_SIZE]);
      SocketStep(limit, buffer, pending, unread, rest, budget, intake);
      if intake.More? {
        SocketLoop(limit, intake.buffer, intake.pending, rest, budget - 1);
      }
    }
  }

  /** A client that has more to say, and nobody who will come back to listen. */
  ghost predicate Unheard(next: Next, unread: Bytes) {
    && |unread| > READ_CAPACITY && next.Stays?
    && next.entry.conn.phase.Reading? && !next.entry.log.readArmed
  }

  /** Exactly when a client is left with unread bytes of its request and no edge to come: it had sent more than one
      event lets the worker read, and what the worker has read is neither a whole request nor refused. */
  lemma WhenTheReaderIsForgotten(setup: Setup, e: Entry, k: Kernel, unread: Bytes)
    requires PendingOk(PendingOf(e.conn.phase)) && e.conn.phase.Reading? && k.clientReads == SocketReads(unread)
    ensures Unheard(OnReadable(setup, e, k), unread) <==>
              && |unread| > READ_CAPACITY
              && Feed(setup.maxRead, e.conn.readBuffer, e.conn.phase.pending, Pieces(unread, MAX_READS_PER_EVENT)).More?
  {
    if |unread| > READ_CAPACITY {
      SocketLoop(setup.maxRead, e.conn.readBuffer, e.conn.phase.pending, unread, MAX_READS_PER_EVENT);
      OnReadsUnheard(setup, e, ReadsOf(setup, e.conn, k.clientReads), k, unread);
    }
  }

  lemma OnReadsUnheard(setup: Setup, e: Entry, end: ReadEnd, k: Kernel, unread: Bytes)
    requires e.conn.phase.Reading? && |unread| > READ_CAPACITY
    ensures Unheard(OnReads(setup, e, end, k.plan, k.registersClient), unread) <==> end.Stops?
  {
  }

  /** It cannot happen to a worker whose limit is no more than it reads in one event. */
  lemma SmallLimitsForgetNobody(setup: Setup, e: Entry, k: Kernel, unread: Bytes)
    requires PendingOk(PendingOf(e.conn.phase)) && e.conn.phase.Reading? && k.clientReads == SocketReads(unread)
    requires setup.maxRead < READ_CAPACITY
    ensures !Unheard(OnReadable(setup, e, k), unread)
  {
    WhenTheReaderIsForgotten(setup, e, k, unread);
    if |unread| > READ_CAPACITY {
      PiecesSize(unread, MAX_READS_PER_EVENT);
      FedFits(setup.maxRead, e.conn.readBuffer, e.conn.phase.pending, Pieces(unread, MAX_READS_PER_EVENT));
    }
  }

  lemma {:induction false} PiecesSize(unread: Bytes, count: nat)
    requires |unread| >= count * READ_SIZE
    ensures Flatten(Pieces(unread, count)) == unread[..count * READ_SIZE]
    decreases count
  {
    if count > 0 {
      var first, rest := unread[..READ_SIZE], unread[READ_SIZE..];
      assert Pieces(unread, count) == [first] + Pieces(rest, count - 1);
      assert Pieces(unread, count)[1..] == Pieces(rest, count - 1);
      PiecesSize(rest, count - 1);
      assert first + rest[..(count - 1) * READ_SIZE] == unread[..count * READ_SIZE];
    }
  }

  lemma {:induction false} FedFits(limit: nat, buffer: Bytes, pending: Option<Pending>, chunks: seq<Bytes>)
    requires PendingOk(pending)
    ensures Feed(limit, buffer, pending, chunks).More? && chunks != [] ==> |buffer| + |Flatten(chunks)| <= limit
    decreases |chunks|
  {
    if chunks != [] {
      var next := Ingest(limit, buffer, pending, chunks[0]);
      if next.More? {
        FedFits(limit, next.buffer, next.pending, chunks[1..]);
      }
    }
  }

  /** A kernel with that much to read from the client. */
  function Pouring(unread: Bytes): Kernel {
    Kernel([], SocketReads(unread), true, [], [], Exchange.NoUpstream, false, true, true)
  }

  /** It does happen, to a new connection of any worker that may buffer so much: after its only event it is in no queue,
      and only the idle timeout, which drops it, is left. */
  lemma ForgottenUpload(setup: Setup, unread: Bytes) returns (e: Entry)
    requires |unread| > READ_CAPACITY && Feed(setup.maxRead, "", None, Pieces(unread, MAX_READS_PER_EVENT)).More?
    ensures Do(setup, NEW, ReadClient, Pouring(unread)) == Stays(e) && Unheard(Stays(e), unread)
    ensures !e.writeQueued && !e.upstreamWriteQueued && !e.upstreamReadQueued
    ensures forall k :: OnChore(setup, e, CloseIdle, k) == Leaves(Aborted, e.log)
  {
    WhenTheReaderIsForgotten(setup, NEW, Pouring(unread), unread);
    e := OnReadable(setup, NEW, Pouring(unread)).entry;
  }
}
