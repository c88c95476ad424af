/** One plaintext client connection of the io_uring worker, from accept to close, as a protocol: a stage that
    says what the connection is waiting for, the bytes in transit, and a log of everything received and sent.
    The worker in UringWorker.dfy is proved to follow this protocol; the theorems about whole runs are here. */
module Exchange {
  import opened Common
  import opened Http

  type Address = nat

  /** A response piece that exists only if it has bytes: static heads and file chunks. */
  type Piece = b: Bytes | b != "" witness "-"

  /** What a file stream still has to deliver, and whether it then fails. */
  datatype Stream = Stream(chunks: seq<Piece>, fails: bool)

  /** The responses the server makes up itself. */
  datatype Notice =
    | Configured(status: nat, body: Bytes)
    | Refused(refusal: Refusal)
    | ResponseTooLarge
    | BadUpstream
    | UpstreamRequestTooLarge
    | ResolutionFailed
    | NoAddress
    | ConnectionFailed
    | WriteFailed
    | InvalidWrite
    | ResponseFailed
    | ChunkTooLarge
    | TimedOut(phase: Phase)

  /** The upstream phases, each with its own timeout. */
  datatype Phase = ResolvingPhase | ConnectingPhase | WritingRequest | ReadingResponse

  /** The limits of a worker; how its notices are written; and the request it sends to the upstream of a given URL
      for a given client request, if the URL is usable. */
  datatype Setup = Setup(
    maxRead: nat,
    maxWrite: nat,
    render: Notice -> Piece,
    forward: (Bytes, RequestHead, Bytes) -> Option<Piece>)

  const EINTR: int := 4
  const EAGAIN: int := 11
  const EINVAL: int := 22
  const EOPNOTSUPP: int := 95
  const ENOBUFS: int := 105

  predicate RetrySend(result: int) { result == -EAGAIN || result == -EINTR }

  predicate RetryRecv(result: int) { result == -EAGAIN || result == -EINTR || result == -ENOBUFS }

  datatype Ending = Finished | Dropped

  datatype Stage =
    | Reading(buffer: Bytes, pending: Option<Pending>)   // receiving the request
    | Replying                                           // sending a local response
    | Streaming(stream: Stream)                          // sending a piece of a file response
    | AwaitingChunk(stream: Stream)                      // nothing to send until the file stream delivers
    | Resolving                                          // waiting for the upstream's addresses
    | Connecting(address: Address, rest: seq<Address>)   // connecting to one of them
    | Requesting                                         // sending the request upstream
    | Responding                                         // receiving from upstream
    | Relaying                                           // sending what was received to the client
    | Closed(ending: Ending)

  /** Where the bytes of a response come from. */
  datatype Source = Local(response: Bytes) | File(contents: Bytes) | FromUpstream

  datatype Log = Log(
    toClient: Bytes,          // bytes the client's socket accepted
    fromUpstream: Bytes,      // upstream bytes taken over for the client
    sources: seq<Source>,     // every response source ever started
    resolved: seq<Address>,   // the addresses the resolver gave
    tried: seq<Address>,      // the addresses used up, in order
    wire: seq<Bytes>)         // per upstream socket opened: the request bytes it accepted

  datatype Exchange = Exchange(
    stage: Stage,
    out: Bytes,
    sent: nat,
    request: Bytes,
    requestSent: nat,
    timedOut: bool,
    log: Log)

  /** What routing decides about a complete request. */
  datatype Plan =
    | NoListener
    | Respond(status: nat, body: Bytes)
    | Serve(head: Piece, stream: Option<Stream>)
    | NoUpstream
    | Forward(url: Bytes, resolverRuns: bool)

  /** What the worker learns about one connection. `failures` counts the upstream sockets that could not be
      created before one could; `ready` says whether the file stream has something to deliver. */
  datatype Event =
    | Received(result: int, data: Bytes, plan: Plan)
    | Sent(result: int, ready: bool)
    | Resolved(answer: Option<seq<Address>>, failures: nat)
    | Connected(result: int, failures: nat)
    | RequestSent(result: int)
    | Responded(result: int, data: Bytes)
    | Expired
    | Pumped(ready: bool)

  const START: Exchange :=
    Exchange(Reading("", None), "", 0, "", 0, false, Log("", "", [], [], [], []))

  // ---------------------------------------------------------------- steps

  function Close(e: Exchange, ending: Ending): Exchange { e.(stage := Closed(ending), timedOut := false) }

  function Reply(e: Exchange, response: Piece): Exchange {
    e.(stage := Replying, out := response, sent := 0, timedOut := false,
       log := e.log.(sources := e.log.sources + [Local(response)]))
  }

  /** A failed upstream is reported only if none of its bytes has been passed on. */
  function FailUpstream(setup: Setup, e: Exchange, notice: Notice): Exchange {
    if e.log.fromUpstream != "" then Close(e, Dropped) else Reply(e, setup.render(notice))
  }

  function Dispatch(setup: Setup, e: Exchange, head: RequestHead, body: Bytes, plan: Plan): Exchange {
    match plan
    case NoListener => Close(e, Dropped)
    case Respond(status, text) =>
      var response := setup.render(Configured(status, text));
      Reply(e, if |response| > setup.maxWrite then setup.render(ResponseTooLarge) else response)
    case Serve(first, None) => Reply(e, first)
    case Serve(first, Some(stream)) =>
      e.(stage := Streaming(stream), out := first, sent := 0,
         log := e.log.(sources := e.log.sources + [File(first + Flatten(stream.chunks))]))
    case NoUpstream => Reply(e, setup.render(BadUpstream))
    case Forward(url, resolverRuns) =>
      match setup.forward(url, head, body)
      case None => Reply(e, setup.render(BadUpstream))
      case Some(request) =>
        if |request| > setup.maxRead then Reply(e, setup.render(UpstreamRequestTooLarge))
        else if !resolverRuns then Reply(e, setup.render(ResolutionFailed))
        else e.(stage := Resolving, request := request, requestSent := 0)
  }

  function OnReceived(setup: Setup, e: Exchange, result: int, data: Bytes, plan: Plan): Exchange
    requires e.stage.Reading? && PendingOk(e.stage.pending)
  {
    if result <= 0 then (if RetryRecv(result) then e else Close(e, Dropped))
    else OnIntake(setup, e, Ingest(setup.maxRead, e.stage.buffer, e.stage.pending, data), plan)
  }

  function OnIntake(setup: Setup, e: Exchange, intake: Intake, plan: Plan): Exchange {
    match intake
    case More(buffer, pending) => e.(stage := Reading(buffer, pending))
    case Rejected(refusal) => Reply(e, setup.render(Refused(refusal)))
    case Ready(head, body) => Dispatch(setup, e, head, body, plan)
  }

  function NextChunk(e: Exchange, stream: Stream, ready: bool): Exchange {
    if !ready then e.(stage := AwaitingChunk(stream), out := "", sent := 0)
    else if stream.chunks != [] then
      e.(stage := Streaming(stream.(chunks := stream.chunks[1..])), out := stream.chunks[0], sent := 0)
    else Close(e.(out := "", sent := 0), if stream.fails then Dropped else Finished)
  }

  predicate IsSending(stage: Stage) { stage.Replying? || stage.Streaming? || stage.Relaying? }

  /** Bytes accepted by the client move from unsent to sent. */
  function Advance(e: Exchange, result: nat): Exchange
    requires e.sent + result <= |e.out|
  {
    var end := e.sent + result;
    e.(sent := end, log := e.log.(toClient := e.log.toClient + e.out[e.sent..end]))
  }

  /** The queued bytes are all sent. */
  function AfterDrain(e: Exchange, ready: bool): Exchange {
    match e.stage
    case Streaming(stream) => NextChunk(e, stream, ready)
    case Relaying => e.(stage := Responding, out := "", sent := 0)
    case _ => Close(e, Finished)
  }

  function OnSent(e: Exchange, result: int, ready: bool): Exchange
    requires IsSending(e.stage) && e.sent <= |e.out|
  {
    if RetrySend(result) then e
    else if result <= 0 || result > |e.out| - e.sent then Close(e, Dropped)
    else
      var e' := Advance(e, result);
      if e'.sent < |e.out| then e' else AfterDrain(e', ready)
  }

  /** Use up addresses until a socket can be created. */
  function TryNext(setup: Setup, e: Exchange, addresses: seq<Address>, failures: nat): Exchange {
    if failures >= |addresses| then
      Reply(e.(log := e.log.(tried := e.log.tried + addresses)), setup.render(ConnectionFailed))
    else
      e.(stage := Connecting(addresses[failures], addresses[failures + 1..]), timedOut := false,
         log := e.log.(tried := e.log.tried + addresses[..failures + 1], wire := e.log.wire + [""]))
  }

  function OnResolved(setup: Setup, e: Exchange, answer: Option<seq<Address>>, failures: nat): Exchange {
    match answer
    case None => Reply(e, setup.render(ResolutionFailed))
    case Some(addresses) =>
      if addresses == [] then Reply(e, setup.render(NoAddress))
      else TryNext(setup, e.(log := e.log.(resolved := addresses)), addresses, failures)
  }

  function OnConnected(setup: Setup, e: Exchange, result: int, failures: nat): Exchange
    requires e.stage.Connecting?
  {
    if e.timedOut then FailUpstream(setup, e, TimedOut(ConnectingPhase))
    else if result < 0 then TryNext(setup, e, e.stage.rest, failures)
    else e.(stage := Requesting)
  }

  function OnRequestSent(setup: Setup, e: Exchange, result: int): Exchange
    requires e.requestSent <= |e.request| && e.log.wire != []
  {
    if e.timedOut then FailUpstream(setup, e, TimedOut(WritingRequest))
    else if RetrySend(result) then e
    else if result <= 0 then FailUpstream(setup, e, WriteFailed)
    else if result > |e.request| - e.requestSent then FailUpstream(setup, e, InvalidWrite)
    else
      var end := e.requestSent + result;
      var last := |e.log.wire| - 1;
      var wire := e.log.wire[last := e.log.wire[last] + e.request[e.requestSent..end]];
      e.(requestSent := end, log := e.log.(wire := wire),
         stage := if end == |e.request| then Responding else Requesting)
  }

  function OnResponded(setup: Setup, e: Exchange, result: int, data: Bytes): Exchange {
    if e.timedOut then FailUpstream(setup, e, TimedOut(ReadingResponse))
    else if RetryRecv(result) then e
    else if result < 0 then FailUpstream(setup, e, ResponseFailed)
    else if result == 0 then Close(e, Finished)
    else if |data| > setup.maxWrite then FailUpstream(setup, e, ChunkTooLarge)
    else Relay(e, data)
  }

  /** Upstream bytes are taken over for the client. */
  function Relay(e: Exchange, data: Bytes): Exchange {
    e.(stage := Relaying, out := data, sent := 0,
       log := e.log.(
         fromUpstream := e.log.fromUpstream + data,
         sources := if e.log.fromUpstream == "" then e.log.sources + [FromUpstream] else e.log.sources))
  }

  predicate UpstreamPending(stage: Stage) { stage.Connecting? || stage.Requesting? || stage.Responding? }

  function OnExpired(setup: Setup, e: Exchange): Exchange {
    if e.stage.Resolving? then FailUpstream(setup, e, TimedOut(ResolvingPhase))
    else if UpstreamPending(e.stage) then e.(timedOut := true)
    else e
  }

  /** The events that can reach a connection in a given stage. */
  predicate Possible(stage: Stage, event: Event) {
    match event
    case Received(result, data, _) => stage.Reading? && (result > 0 ==> |data| == result)
    case Sent(_, _) => IsSending(stage)
    case Resolved(_, _) => stage.Resolving?
    case Connected(_, _) => stage.Connecting?
    case RequestSent(_) => stage.Requesting?
    case Responded(result, data) => stage.Responding? && (result > 0 ==> |data| == result)
    case Expired => true
    case Pumped(_) => stage.AwaitingChunk?
  }

  /** What a step relies on: offsets within their buffers, something left to send while sending. */
  ghost predicate InOrder(e: Exchange) {
    && e.sent <= |e.out| && e.requestSent <= |e.request|
    && (e.timedOut ==> UpstreamPending(e.stage))
    && match e.stage
       case Reading(_, pending) => PendingOk(pending) && e.out == "" && e.log.fromUpstream == ""
       case Replying => e.sent < |e.out|
       case Streaming(_) => e.sent < |e.out|
       case Relaying => e.sent < |e.out|
       case Requesting => e.out == "" && e.requestSent < |e.request| && e.log.wire != [] && e.log.fromUpstream == ""
       case Resolving => e.out == "" && e.requestSent == 0 && e.log.fromUpstream == ""
       case Connecting(_, _) => e.out == "" && e.requestSent == 0 && e.log.fromUpstream == ""
       case Closed(_) => true
       case _ => e.out == ""
  }

  function Step(setup: Setup, e: Exchange, event: Event): Exchange
    requires InOrder(e)
  {
    if !Possible(e.stage, event) then e
    else
      match event
      case Received(result, data, plan) => OnReceived(setup, e, result, data, plan)
      case Sent(result, ready) => OnSent(e, result, ready)
      case Resolved(answer, failures) => OnResolved(setup, e, answer, failures)
      case Connected(result, failures) => OnConnected(setup, e, result, failures)
      case RequestSent(result) => OnRequestSent(setup, e, result)
      case Responded(result, data) => OnResponded(setup, e, result, data)
      case Expired => OnExpired(setup, e)
      case Pumped(ready) => NextChunk(e, e.stage.stream, ready)
  }

  // ---------------------------------------------------------------- the invariant

  /** The whole of what a source has to say so far. */
  function Content(source: Source, log: Log): Bytes {
    match source
    case Local(response) => response
    case File(contents) => contents
    case FromUpstream => log.fromUpstream
  }

  /** The bytes of the response that have not reached the client. */
  function Unsent(e: Exchange): Bytes
    requires e.sent <= |e.out|
  {
    e.out[e.sent..] + match e.stage
                      case Streaming(stream) => Flatten(stream.chunks)
                      case AwaitingChunk(stream) => Flatten(stream.chunks)
                      case _ => ""
  }

  /** The one source of the response, or none yet, and what the client has of it. */
  ghost predicate Conserves(e: Exchange) {
    && e.sent <= |e.out|
    && |e.log.sources| <= 1
    && (e.log.sources == [] ==> e.log.toClient == "" && e.log.fromUpstream == "")
    && (e.log.sources != [] ==>
          var content := Content(e.log.sources[0], e.log);
          match e.stage
          case Closed(Finished) => e.log.toClient == content
          case Closed(Dropped) => e.log.toClient <= content
          case _ => content == e.log.toClient + Unsent(e))
    && (e.log.sources != [] && !e.log.sources[0].FromUpstream? ==> e.log.fromUpstream == "")
    && (e.log.sources != [] && e.log.sources[0].FromUpstream? ==> e.log.fromUpstream != "")
  }

  /** Upstream sockets: only the newest was ever written to, and it got a prefix of the request, once. */
  ghost predicate WireOk(e: Exchange) {
    && e.requestSent <= |e.request|
    && (forall i | 0 <= i < |e.log.wire| - 1 :: e.log.wire[i] == "")
    && (if e.log.wire == [] then e.requestSent == 0 else e.log.wire[|e.log.wire| - 1] == e.request[..e.requestSent])
  }

  /** Addresses are used up from the front of the resolver's answer. */
  ghost predicate AddressesOk(e: Exchange) {
    && e.log.tried <= e.log.resolved
    && |e.log.wire| <= |e.log.tried|
    && (e.stage.Connecting? ==>
          && e.log.tried + e.stage.rest == e.log.resolved
          && e.log.tried != [] && e.log.tried[|e.log.tried| - 1] == e.stage.address)
  }

  ghost predicate StageOk(setup: Setup, e: Exchange) {
    && (e.timedOut ==> UpstreamPending(e.stage))
    && match e.stage
       case Reading(buffer, pending) =>
         PendingOk(pending) && e.log.sources == [] && e.out == "" && e.log.wire == [] && e.log.resolved == []
           && e.request == ""
       case Replying => e.log.sources != [] && e.log.sources[0].Local? && e.sent < |e.out|
       case Streaming(stream) => e.log.sources != [] && e.log.sources[0].File? && e.sent < |e.out|
       case AwaitingChunk(stream) => e.log.sources != [] && e.log.sources[0].File? && e.out == ""
       case Resolving => e.log.sources == [] && e.out == "" && e.request != "" && e.log.wire == []
         && e.log.resolved == []
       case Connecting(_, _) => e.log.sources == [] && e.out == "" && e.request != "" && e.requestSent == 0
         && e.log.wire != []
       case Requesting => e.log.sources == [] && e.out == "" && e.requestSent < |e.request| && e.log.wire != []
       case Responding =>
         && e.out == "" && e.requestSent == |e.request|
         && (e.log.sources != [] ==> e.log.sources[0].FromUpstream?)
       case Relaying =>
         && e.log.sources != [] && e.log.sources[0].FromUpstream? && e.requestSent == |e.request|
         && e.sent < |e.out| <= setup.maxWrite
       case Closed(_) => true
  }

  ghost predicate Safe(setup: Setup, e: Exchange) {
    StageOk(setup, e) && Conserves(e) && WireOk(e) && AddressesOk(e)
  }

  lemma SafeIsInOrder(setup: Setup, e: Exchange)
    requires Safe(setup, e)
    ensures InOrder(e)
  {
  }

  lemma StartIsSafe(setup: Setup)
    ensures Safe(setup, START)
  {
  }

  lemma ReplyIsSafe(setup: Setup, e: Exchange, response: Piece)
    requires Safe(setup, e) && e.log.sources == []
    ensures Safe(setup, Reply(e, response))
  {
    var e' := Reply(e, response);
    assert Unsent(e') == response + "" == response;
    assert e'.log.toClient + Unsent(e') == response;
  }

  lemma FailUpstreamIsSafe(setup: Setup, e: Exchange, notice: Notice)
    requires Safe(setup, e) && !e.stage.Closed?
    requires e.log.fromUpstream == "" ==> e.log.sources == []
    ensures Safe(setup, FailUpstream(setup, e, notice))
  {
    if e.log.fromUpstream == "" {
      ReplyIsSafe(setup, e, setup.render(notice));
    }
  }

  lemma DispatchIsSafe(setup: Setup, e: Exchange, head: RequestHead, body: Bytes, plan: Plan)
    requires Safe(setup, e) && e.stage.Reading?
    ensures Safe(setup, Dispatch(setup, e, head, body, plan))
  {
    var e' := Dispatch(setup, e, head, body, plan);
    if e'.stage.Streaming? {
      assert e'.out[0..] == e'.out;
    } else if e'.stage.Replying? {
      ReplyIsSafe(setup, e, e'.out);
    }
  }

  lemma OnReceivedIsSafe(setup: Setup, e: Exchange, result: int, data: Bytes, plan: Plan)
    requires Safe(setup, e) && e.stage.Reading?
    ensures Safe(setup, OnReceived(setup, e, result, data, plan))
  {
    if result > 0 {
      OnIntakeIsSafe(setup, e, Ingest(setup.maxRead, e.stage.buffer, e.stage.pending, data), plan);
    }
  }

  lemma OnIntakeIsSafe(setup: Setup, e: Exchange, intake: Intake, plan: Plan)
    requires Safe(setup, e) && e.stage.Reading? && (intake.More? ==> PendingOk(intake.pending))
    ensures Safe(setup, OnIntake(setup, e, intake, plan))
  {
    match intake {
      case More(_, _) =>
      case Rejected(refusal) => ReplyIsSafe(setup, e, setup.render(Refused(refusal)));
      case Ready(head, body) => DispatchIsSafe(setup, e, head, body, plan);
    }
  }

  lemma NextChunkIsSafe(setup: Setup, e: Exchange, stream: Stream, ready: bool)
    requires WireOk(e) && AddressesOk(e) && !e.stage.Connecting? && !e.timedOut
    requires |e.log.sources| == 1 && e.log.sources[0].File? && e.log.fromUpstream == ""
    requires e.log.sources[0].contents == e.log.toClient + Flatten(stream.chunks)
    ensures Safe(setup, NextChunk(e, stream, ready))
  {
    var e' := NextChunk(e, stream, ready);
    if ready && stream.chunks != [] {
      assert e'.out[0..] == stream.chunks[0];
    } else if ready {
      assert e.log.toClient + "" == e.log.toClient;
    } else {
      assert Unsent(e') == Flatten(stream.chunks);
    }
  }

  lemma AdvanceConserves(e: Exchange, result: nat)
    requires e.sent + result <= |e.out|
    ensures Advance(e, result).log.toClient + Unsent(Advance(e, result)) == e.log.toClient + Unsent(e)
  {
    assert e.out[e.sent..] == e.out[e.sent..e.sent + result] + e.out[e.sent + result..];
  }

  lemma PartialSendIsSafe(setup: Setup, e: Exchange, result: nat)
    requires Safe(setup, e) && IsSending(e.stage) && e.sent + result < |e.out|
    ensures Safe(setup, Advance(e, result))
  {
    AdvanceConserves(e, result);
  }

  lemma FullSendIsSafe(setup: Setup, e: Exchange, ready: bool)
    requires Safe(setup, e) && IsSending(e.stage)
    ensures Safe(setup, OnSent(e, |e.out| - e.sent, ready))
  {
    var result := |e.out| - e.sent;
    var e' := Advance(e, result);
    AdvanceConserves(e, result);
    assert e'.out[e'.sent..] == "";
    if e.stage.Streaming? {
      var stream := e.stage.stream;
      assert Unsent(e') == Flatten(stream.chunks);
      assert OnSent(e, result, ready) == NextChunk(e', stream, ready);
      NextChunkIsSafe(setup, e', stream, ready);
    } else {
      assert Unsent(e') == "";
      assert e'.log.toClient + "" == e'.log.toClient;
      if e.stage.Relaying? {
        var e'' := e'.(stage := Responding, out := "", sent := 0);
        assert Unsent(e'') == "";
        assert OnSent(e, result, ready) == e'';
      } else {
        assert OnSent(e, result, ready) == Close(e', Finished);
      }
    }
  }

  lemma OnSentIsSafe(setup: Setup, e: Exchange, result: int, ready: bool)
    requires Safe(setup, e) && IsSending(e.stage)
    ensures Safe(setup, OnSent(e, result, ready))
  {
    if 0 < result < |e.out| - e.sent {
      PartialSendIsSafe(setup, e, result);
    } else if result == |e.out| - e.sent {
      FullSendIsSafe(setup, e, ready);
    }
  }

  lemma TryNextIsSafe(setup: Setup, e: Exchange, addresses: seq<Address>, failures: nat)
    requires WireOk(e) && e.log.sources == [] && e.log.toClient == "" && e.log.fromUpstream == ""
    requires e.out == "" && e.sent == 0 && e.request != "" && e.requestSent == 0
    requires e.log.tried + addresses == e.log.resolved && |e.log.wire| <= |e.log.tried|
    ensures Safe(setup, TryNext(setup, e, addresses, failures))
  {
    var e' := TryNext(setup, e, addresses, failures);
    if failures >= |addresses| {
      assert Unsent(e') == e'.out;
    } else {
      assert addresses == addresses[..failures + 1] + addresses[failures + 1..];
      assert e'.log.tried + e'.stage.rest == e.log.tried + addresses;
      assert forall i | 0 <= i < |e.log.wire| :: e'.log.wire[i] == e.log.wire[i];
      assert e.log.wire != [] ==> e.log.wire[|e.log.wire| - 1] == "";
    }
  }

  lemma OnRequestSentIsSafe(setup: Setup, e: Exchange, result: int)
    requires Safe(setup, e) && e.stage.Requesting?
    ensures Safe(setup, OnRequestSent(setup, e, result))
  {
    if !e.timedOut && 0 < result <= |e.request| - e.requestSent {
      var end := e.requestSent + result;
      assert e.request[..end] == e.request[..e.requestSent] + e.request[e.requestSent..end];
      assert "" + Unsent(e) == "";
    } else if e.timedOut || !RetrySend(result) {
      ReplyIsSafe(setup, e, OnRequestSent(setup, e, result).out);
    }
  }

  lemma UnsentAtRest(e: Exchange)
    requires e.sent <= |e.out| && e.out == "" && !e.stage.Streaming? && !e.stage.AwaitingChunk?
    ensures Unsent(e) == ""
  {
  }

  lemma ConservesOpen(e: Exchange)
    requires Conserves(e) && !e.stage.Closed? && e.log.sources != []
    ensures Content(e.log.sources[0], e.log) == e.log.toClient + Unsent(e)
  {
  }

  lemma NothingUnsent(e: Exchange)
    requires Conserves(e) && e.stage.Responding? && e.out == ""
      && (e.log.sources != [] ==> e.log.sources[0].FromUpstream?)
    ensures e.log.toClient == e.log.fromUpstream
  {
    if e.log.sources != [] {
      ConservesOpen(e);
      UnsentAtRest(e);
      assert e.log.toClient + "" == e.log.toClient;
    }
  }

  lemma RelayConserves(e: Exchange, data: Bytes)
    requires e.log.toClient == e.log.fromUpstream && data != "" && |e.log.sources| <= 1
    requires e.log.sources == [] ==> e.log.fromUpstream == ""
    requires e.log.sources != [] ==> e.log.sources[0].FromUpstream? && e.log.fromUpstream != ""
    ensures Conserves(Relay(e, data)) && Relay(e, data).log.sources == [FromUpstream]
  {
    var e' := Relay(e, data);
    assert data[0..] == data && Unsent(e') == data + "" == data;
    assert e'.log.sources == [FromUpstream];
  }

  lemma RelayIsSafe(setup: Setup, e: Exchange, data: Bytes)
    requires Safe(setup, e) && e.stage.Responding? && !e.timedOut && 0 < |data| <= setup.maxWrite
    ensures Safe(setup, Relay(e, data))
  {
    NothingUnsent(e);
    RelayConserves(e, data);
    RelayKeepsTheRest(setup, e, data);
  }

  lemma RelayKeepsTheRest(setup: Setup, e: Exchange, data: Bytes)
    requires WireOk(e) && AddressesOk(e) && !e.timedOut && e.requestSent == |e.request| && 0 < |data| <= setup.maxWrite
    requires Relay(e, data).log.sources == [FromUpstream]
    ensures StageOk(setup, Relay(e, data)) && WireOk(Relay(e, data)) && AddressesOk(Relay(e, data))
  {
  }

  lemma OnRespondedIsSafe(setup: Setup, e: Exchange, result: int, data: Bytes)
    requires Safe(setup, e) && e.stage.Responding? && (result > 0 ==> |data| == result)
    ensures Safe(setup, OnResponded(setup, e, result, data))
  {
    if e.timedOut {
      FailUpstreamIsSafe(setup, e, TimedOut(ReadingResponse));
    } else if RetryRecv(result) {
    } else if result < 0 {
      FailUpstreamIsSafe(setup, e, ResponseFailed);
    } else if result == 0 {
      NothingUnsent(e);
    } else if |data| > setup.maxWrite {
      FailUpstreamIsSafe(setup, e, ChunkTooLarge);
    } else {
      RelayIsSafe(setup, e, data);
    }
  }

  lemma OnResolvedIsSafe(setup: Setup, e: Exchange, answer: Option<seq<Address>>, failures: nat)
    requires Safe(setup, e) && e.stage.Resolving?
    ensures Safe(setup, OnResolved(setup, e, answer, failures))
  {
    if answer.Some? && answer.value != [] {
      TryNextIsSafe(setup, e.(log := e.log.(resolved := answer.value)), answer.value, failures);
    } else {
      ReplyIsSafe(setup, e, OnResolved(setup, e, answer, failures).out);
    }
  }

  lemma OnConnectedIsSafe(setup: Setup, e: Exchange, result: int, failures: nat)
    requires Safe(setup, e) && e.stage.Connecting?
    ensures Safe(setup, OnConnected(setup, e, result, failures))
  {
    if e.timedOut {
      FailUpstreamIsSafe(setup, e, TimedOut(ConnectingPhase));
    } else if result < 0 {
      TryNextIsSafe(setup, e, e.stage.rest, failures);
    }
  }

  lemma OnExpiredIsSafe(setup: Setup, e: Exchange)
    requires Safe(setup, e)
    ensures Safe(setup, OnExpired(setup, e))
  {
    if e.stage.Resolving? {
      FailUpstreamIsSafe(setup, e, TimedOut(ResolvingPhase));
    }
  }

  lemma OnPumpedIsSafe(setup: Setup, e: Exchange, ready: bool)
    requires Safe(setup, e) && e.stage.AwaitingChunk?
    ensures Safe(setup, NextChunk(e, e.stage.stream, ready))
  {
    assert Unsent(e) == Flatten(e.stage.stream.chunks);
    NextChunkIsSafe(setup, e, e.stage.stream, ready);
  }

  lemma StepIsSafe(setup: Setup, e: Exchange, event: Event)
    requires Safe(setup, e)
    ensures Safe(setup, Step(setup, e, event))
  {
    if Possible(e.stage, event) {
      match event {
        case Received(result, data, plan) => OnReceivedIsSafe(setup, e, result, data, plan);
        case Sent(result, ready) => OnSentIsSafe(setup, e, result, ready);
        case Resolved(answer, failures) => OnResolvedIsSafe(setup, e, answer, failures);
        case Connected(result, failures) => OnConnectedIsSafe(setup, e, result, failures);
        case RequestSent(result) => OnRequestSentIsSafe(setup, e, result);
        case Responded(result, data) => OnRespondedIsSafe(setup, e, result, data);
        case Expired => OnExpiredIsSafe(setup, e);
        case Pumped(ready) => OnPumpedIsSafe(setup, e, ready);
      }
    }
  }

  // ---------------------------------------------------------------- whole runs

  /** A connection after any sequence of events; every state it can reach is safe. */
  function Run(setup: Setup, events: seq<Event>): (e: Exchange)
    ensures Safe(setup, e)
  {
    if events == [] then START
    else
      var before := Run(setup, events[..|events| - 1]);
      var event := events[|events| - 1];
      StepIsSafe(setup, before, event);
      Step(setup, before, event)
  }

  /** How far an exchange has come: reading, then the upstream phases in order, then the answer, then closed. */
  function Rank(stage: Stage): nat {
    match stage
    case Reading(_, _) => 0
    case Resolving => 1
    case Connecting(_, _) => 2
    case Requesting => 3
    case Responding => 4
    case Relaying => 4
    case Replying => 5
    case Streaming(_) => 5
    case AwaitingChunk(_) => 5
    case Closed(_) => 6
  }

  /** What can never be taken back: progress through the phases, and everything logged. */
  ghost predicate Extends(a: Exchange, b: Exchange) {
    && Rank(a.stage) <= Rank(b.stage)
    && a.log.toClient <= b.log.toClient
    && a.log.fromUpstream <= b.log.fromUpstream
    && a.log.sources <= b.log.sources
    && a.log.tried <= b.log.tried
    && (a.log.resolved != [] ==> b.log.resolved == a.log.resolved)
    && (a.request != "" ==> b.request == a.request)
    && a.requestSent <= b.requestSent
    && |a.log.wire| <= |b.log.wire|
    && (forall i | 0 <= i < |a.log.wire| :: a.log.wire[i] <= b.log.wire[i])
    && (a.requestSent > 0 ==> |b.log.wire| == |a.log.wire|)
  }

  lemma ExtendsTransitive(a: Exchange, b: Exchange, c: Exchange)
    requires Extends(a, b) && Extends(b, c)
    ensures Extends(a, c)
  {
    assert forall i | 0 <= i < |a.log.wire| :: a.log.wire[i] <= b.log.wire[i] <= c.log.wire[i];
  }

  lemma OnReceivedExtends(setup: Setup, e: Exchange, result: int, data: Bytes, plan: Plan)
    requires Safe(setup, e) && e.stage.Reading?
    ensures Extends(e, OnReceived(setup, e, result, data, plan))
  {
  }

  lemma OnSentExtends(setup: Setup, e: Exchange, result: int, ready: bool)
    requires Safe(setup, e) && IsSending(e.stage)
    ensures Extends(e, OnSent(e, result, ready))
  {
  }

  lemma TryNextExtends(setup: Setup, e: Exchange, addresses: seq<Address>, failures: nat)
    requires Rank(e.stage) <= 2 && e.requestSent == 0
    ensures Extends(e, TryNext(setup, e, addresses, failures))
  {
  }

  lemma OnRequestSentExtends(setup: Setup, e: Exchange, result: int)
    requires Safe(setup, e) && e.stage.Requesting?
    ensures Extends(e, OnRequestSent(setup, e, result))
  {
    var e' := OnRequestSent(setup, e, result);
    if !e.timedOut && 0 < result <= |e.request| - e.requestSent {
      var last := |e.log.wire| - 1;
      assert e'.log.wire == e.log.wire[last := e.log.wire[last] + e.request[e.requestSent..e'.requestSent]];
      assert e'.log == e.log.(wire := e'.log.wire);
    } else {
      assert e'.log.(sources := e.log.sources) == e.log && e.log.sources <= e'.log.sources;
    }
  }

  lemma OnResolvedExtends(setup: Setup, e: Exchange, answer: Option<seq<Address>>, failures: nat)
    requires Safe(setup, e) && e.stage.Resolving?
    ensures Extends(e, OnResolved(setup, e, answer, failures))
  {
    if answer.Some? && answer.value != [] {
      TryNextExtends(setup, e.(log := e.log.(resolved := answer.value)), answer.value, failures);
    }
  }

  lemma OnConnectedExtends(setup: Setup, e: Exchange, result: int, failures: nat)
    requires Safe(setup, e) && e.stage.Connecting?
    ensures Extends(e, OnConnected(setup, e, result, failures))
  {
    if !e.timedOut && result < 0 {
      TryNextExtends(setup, e, e.stage.rest, failures);
    }
  }

  lemma OnRespondedExtends(setup: Setup, e: Exchange, result: int, data: Bytes)
    requires Safe(setup, e) && e.stage.Responding?
    ensures Extends(e, OnResponded(setup, e, result, data))
  {
  }

  lemma TimerExtends(setup: Setup, e: Exchange, ready: bool)
    requires Safe(setup, e)
    ensures Extends(e, OnExpired(setup, e))
    ensures e.stage.AwaitingChunk? ==> Extends(e, NextChunk(e, e.stage.stream, ready))
  {
  }

  lemma StepExtends(setup: Setup, e: Exchange, event: Event)
    requires Safe(setup, e)
    ensures Extends(e, Step(setup, e, event))
  {
    if Possible(e.stage, event) {
      match event {
        case Received(result, data, plan) => OnReceivedExtends(setup, e, result, data, plan);
        case Sent(result, ready) => OnSentExtends(setup, e, result, ready);
        case Resolved(answer, failures) => OnResolvedExtends(setup, e, answer, failures);
        case Connected(result, failures) => OnConnectedExtends(setup, e, result, failures);
        case RequestSent(result) => OnRequestSentExtends(setup, e, result);
        case Responded(result, data) => OnRespondedExtends(setup, e, result, data);
        case Expired => TimerExtends(setup, e, false);
        case Pumped(ready) => TimerExtends(setup, e, ready);
      }
    }
  }

  lemma LastStepExtends(setup: Setup, events: seq<Event>)
    requires events != []
    ensures Extends(Run(setup, events[..|events| - 1]), Run(setup, events))
  {
    StepExtends(setup, Run(setup, events[..|events| - 1]), events[|events| - 1]);
  }

  /** At any two moments of a run, phases have only moved forward and nothing sent, received or tried is undone. */
  lemma {:induction false} RunExtends(setup: Setup, events: seq<Event>, k: nat)
    requires k <= |events|
    ensures Extends(Run(setup, events[..k]), Run(setup, events))
  {
    if k == |events| {
      assert events[..k] == events;
    } else {
      var front := events[..|events| - 1];
      assert front[..k] == events[..k];
      RunExtends(setup, front, k);
      LastStepExtends(setup, events);
      ExtendsTransitive(Run(setup, events[..k]), Run(setup, front), Run(setup, events));
    }
  }

  /** A response that has started stays the only one; the client has received a prefix of it, and all of it when the
      exchange finishes. */
  ghost predicate KeepsSource(first: Exchange, later: Exchange)
    requires first.log.sources != []
  {
    var source := first.log.sources[0];
    && later.log.sources == first.log.sources == [source]
    && later.log.toClient <= Content(source, later.log)
    && (later.stage == Closed(Finished) ==> later.log.toClient == Content(source, later.log))
  }

  lemma ExtendsKeepsSource(setup: Setup, first: Exchange, later: Exchange)
    requires Safe(setup, first) && Safe(setup, later) && Extends(first, later) && first.log.sources != []
    ensures KeepsSource(first, later)
  {
  }

  /** Exactly one response, over every run. */
  lemma OneResponse(setup: Setup, events: seq<Event>, k: nat)
    requires k <= |events| && Run(setup, events[..k]).log.sources != []
    ensures KeepsSource(Run(setup, events[..k]), Run(setup, events))
  {
    RunExtends(setup, events, k);
    ExtendsKeepsSource(setup, Run(setup, events[..k]), Run(setup, events));
  }

  /** The client receives nothing but upstream bytes, in order. */
  ghost predicate OnlyUpstream(e: Exchange) {
    && e.log.sources == [FromUpstream]
    && e.log.toClient <= e.log.fromUpstream
    && !e.stage.Replying? && !e.stage.Streaming? && !e.stage.AwaitingChunk?
  }

  lemma ExtendsOnlyUpstream(setup: Setup, first: Exchange, later: Exchange)
    requires Safe(setup, first) && Safe(setup, later) && Extends(first, later) && first.log.fromUpstream != ""
    ensures OnlyUpstream(later)
  {
  }

  /** No local response after an upstream byte: once one was taken over, none is ever queued again. */
  lemma NoLocalResponseAfterUpstream(setup: Setup, events: seq<Event>, k: nat)
    requires k <= |events| && Run(setup, events[..k]).log.fromUpstream != ""
    ensures OnlyUpstream(Run(setup, events))
  {
    RunExtends(setup, events, k);
    ExtendsOnlyUpstream(setup, Run(setup, events[..k]), Run(setup, events));
  }

  /** What was taken over from upstream is what the client has plus one bounded chunk; what the upstream has is the
      front of the request. */
  ghost predicate Relays(setup: Setup, e: Exchange) {
    && (e.stage.Relaying? ==>
          && e.sent <= |e.out| <= setup.maxWrite
          && e.log.fromUpstream == e.log.toClient + e.out[e.sent..])
    && (e.stage.Responding? ==> e.log.fromUpstream == e.log.toClient)
    && (e.log.wire != [] ==> e.requestSent <= |e.request| && e.log.wire[|e.log.wire| - 1] == e.request[..e.requestSent])
  }

  lemma SafeRelays(setup: Setup, e: Exchange)
    requires Safe(setup, e)
    ensures Relays(setup, e)
  {
    if e.stage.Relaying? {
      ConservesOpen(e);
      assert Unsent(e) == e.out[e.sent..];
    } else if e.stage.Responding? {
      NothingUnsent(e);
    }
  }

  /** Relay conservation, in every reachable state and under any partial reads and writes. */
  lemma RelayConservation(setup: Setup, events: seq<Event>)
    ensures Relays(setup, Run(setup, events))
  {
    SafeRelays(setup, Run(setup, events));
  }

  /** Socket `i` is the newest, and everything it got is the front of one request. */
  ghost predicate OnlySocket(first: Exchange, later: Exchange, i: nat) {
    && |later.log.wire| == |first.log.wire| == i + 1
    && later.request == first.request
    && first.requestSent <= later.requestSent <= |first.request|
    && first.log.wire[i] == first.request[..first.requestSent]
    && later.log.wire[i] == first.request[..later.requestSent]
  }

  lemma ExtendsOnlySocket(first: Exchange, later: Exchange, i: nat)
    requires WireOk(first) && WireOk(later) && Extends(first, later)
    requires i < |first.log.wire| && first.log.wire[i] != ""
    ensures OnlySocket(first, later, i)
  {
  }

  /** The request goes to one upstream socket only, in order and never twice: a socket that has received some of it
      stays the last one opened, over every run. */
  lemma RequestSentOnce(setup: Setup, events: seq<Event>, k: nat, i: nat)
    requires k <= |events| && i < |Run(setup, events[..k]).log.wire| && Run(setup, events[..k]).log.wire[i] != ""
    ensures OnlySocket(Run(setup, events[..k]), Run(setup, events), i)
  {
    RunExtends(setup, events, k);
    ExtendsOnlySocket(Run(setup, events[..k]), Run(setup, events), i);
  }

  /** What has been used up is a prefix of one fixed answer, it only grows, and it ends with the address being
      connected to. */
  ghost predicate TriesInOrder(first: Exchange, later: Exchange) {
    && first.log.tried <= later.log.tried && later.log.tried <= later.log.resolved
    && (first.log.resolved != [] ==> later.log.resolved == first.log.resolved)
    && |later.log.wire| <= |later.log.tried|
    && (later.stage.Connecting? ==>
          && later.log.tried + later.stage.rest == later.log.resolved
          && later.log.tried != [] && later.log.tried[|later.log.tried| - 1] == later.stage.address)
  }

  lemma ExtendsTriesInOrder(first: Exchange, later: Exchange)
    requires AddressesOk(first) && AddressesOk(later) && Extends(first, later)
    ensures TriesInOrder(first, later)
  {
  }

  /** The resolver's addresses are tried in order, each at most once, over every run. */
  lemma AddressesInOrder(setup: Setup, events: seq<Event>, k: nat)
    requires k <= |events|
    ensures TriesInOrder(Run(setup, events[..k]), Run(setup, events))
  {
    RunExtends(setup, events, k);
    ExtendsTriesInOrder(Run(setup, events[..k]), Run(setup, events));
  }

  /** The end of the upstream's response closes the client only when nothing received is unsent. */
  lemma UpstreamEnd(setup: Setup, e: Exchange, event: Event)
    requires Safe(setup, e) && e.stage.Responding?
    requires event.Responded? && Step(setup, e, event).stage == Closed(Finished)
    ensures event.result == 0 && e.log.toClient == e.log.fromUpstream
  {
    NothingUnsent(e);
  }

  /** After a timeout nothing more is forwarded in either direction; the completion that was pending when it struck
      ends the exchange, or turns it into a 504 if the client has received nothing. */
  lemma TimedOutStops(setup: Setup, e: Exchange, event: Event)
    requires Safe(setup, e) && e.timedOut && Possible(e.stage, event)
    ensures var e' := Step(setup, e, event);
            && e'.log.toClient == e.log.toClient && e'.log.fromUpstream == e.log.fromUpstream
              && e'.log.wire == e.log.wire
            && (event.Expired? ==> e' == e)
            && (!event.Expired? ==>
                  if e.log.fromUpstream != "" then e'.stage == Closed(Dropped)
                  else
                    && e'.stage.Replying? && e'.sent == 0
                    && e'.out == setup.render(TimedOut(match e.stage
                                                       case Connecting(_, _) => ConnectingPhase
                                                       case Requesting => WritingRequest
                                                       case _ => ReadingResponse)))
  {
  }

  /** A received upstream chunk is passed on exactly when the phase has not timed out and the chunk fits the write
      buffer; otherwise it is dropped and the relay is over. */
  lemma ChunkRelayed(setup: Setup, e: Exchange, data: Bytes)
    requires Safe(setup, e) && e.stage.Responding? && data != ""
    ensures var e' := Step(setup, e, Responded(|data|, data));
            if !e.timedOut && |data| <= setup.maxWrite
            then e'.stage.Relaying? && e'.log.fromUpstream == e.log.fromUpstream + data
            else (e'.stage.Replying? || e'.stage.Closed?) && e'.log.fromUpstream == e.log.fromUpstream
  {
  }
}
