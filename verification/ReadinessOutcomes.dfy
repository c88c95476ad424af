/** What becomes of a connection of the readiness worker: what its bounded loops make of the answers of its sockets,
    exactly which answers end it and how, which make the server answer by itself, and that an exchange nobody disturbs
    runs to its end. */
module ReadinessOutcomes {
  import opened Common
  import opened Http
  import opened Readiness
  import Exchange

  // ---------------------------------------------------------------- the bounded loops

  /** How many bytes these writes took. */
  ghost function Sum(results: seq<WriteResult>): nat {
    if results == [] then 0 else (if results[0].Written? then results[0].count else 0) + Sum(results[1..])
  }

  ghost predicate Progressing(results: seq<WriteResult>) {
    forall i | 0 <= i < |results| ::
      results[i].WriteInterrupted? || (results[i].Written? && results[i].count > 0)
  }

  /** The loop has used the first `k` results, all of them progress or interruptions. */
  ghost predicate WritesEnd(length: nat, results: seq<WriteResult>, budget: nat, k: nat, offset: nat, end: WriteEnd) {
    && k <= |results| && k <= budget && Progressing(results[..k])
    && match end
       case AllWritten => offset == length
       case Spent => offset < length && k == budget
       case Blocked => offset < length && k < budget && (k == |results| || results[k].WriteWouldBlock?)
       case Broken => offset < length && k < |results| && (results[k] == Written(0) || results[k].WriteFailed?)
  }

  /** A loop of writes goes on until everything is written, the socket refuses, or sixteen calls have been made; what it
      has achieved is what the socket took. */
  lemma {:induction false} WritesMeaning(offset: nat, length: nat, results: seq<WriteResult>, budget: nat)
    returns (k: nat)
    requires offset <= length
    ensures var (to, end) := Writes(offset, length, results, budget);
            && WritesEnd(length, results, budget, k, to, end)
            && to == offset + Taken(Sum(results[..k]), length - offset)
    decreases budget
  {
    k := 0;
    assert Sum(results[..0]) == 0;
    if offset < length && budget > 0 && results != []
      && (results[0].WriteInterrupted? || (results[0].Written? && results[0].count > 0)) {
      var next := if results[0].Written? then offset + Taken(results[0].count, length - offset) else offset;
      var rest := WritesMeaning(next, length, results[1..], budget - 1);
      k := rest + 1;
      assert results[..k] == [results[0]] + results[1..][..rest];
      assert results[..k][1..] == results[1..][..rest];
      OneMoreResult(length, results, budget, rest, Writes(next, length, results[1..], budget - 1));
    }
  }

  lemma OneMoreResult(length: nat, results: seq<WriteResult>, budget: nat, rest: nat, r: (nat, WriteEnd))
    requires results != [] && budget > 0 && Progressing([results[0]])
    requires WritesEnd(length, results[1..], budget - 1, rest, r.0, r.1)
    ensures WritesEnd(length, results, budget, rest + 1, r.0, r.1)
  {
    assert results[0] == [results[0]][0];
    forall i | 0 <= i < rest + 1
      ensures results[i].WriteInterrupted? || (results[i].Written? && results[i].count > 0)
    {
      if i > 0 {
        assert results[1..][..rest][i - 1] == results[i];
      }
    }
  }

  /** The bytes that reads from the client have brought, each clipped to what it asked for. */
  ghost function Brought(results: seq<ReadResult>): seq<Bytes> {
    if results == [] then []
    else if results[0].Data? then [Clip(results[0], READ_SIZE).bytes] + Brought(results[1..])
    else Brought(results[1..])
  }

  ghost predicate Arriving(results: seq<ReadResult>) {
    forall i | 0 <= i < |results| ::
      results[i].ReadInterrupted? || (results[i].Data? && results[i].bytes != "")
  }

  /** The loop has used the first `k` results; the request has been fed what they brought. */
  ghost predicate ReadsEnd(fed: Intake, results: seq<ReadResult>, budget: nat, k: nat, end: ReadEnd) {
    && k <= |results| && k <= budget && Arriving(results[..k])
    && match end
       case Completes(_, head, body) => fed == Ready(head, body)
       case Refuses(_, refusal) => fed == Rejected(refusal)
       case Waits(buffer, pending) =>
         fed == More(buffer, pending) && (k == budget || k == |results| || results[k].ReadWouldBlock?)
       case Stops(buffer, pending) => fed == More(buffer, pending) && k == budget
       case Closes => fed.More? && k < |results| && (results[k] == Data("") || results[k].ReadFailed?)
  }

  /** A loop of reads makes of a request what the intake of the same bytes, chunk by chunk, makes of it; it ends with
      the request, an empty socket, a client that has gone, or its sixteenth read. */
  lemma {:induction false} ReadsMeaning(
      limit: nat, buffer: Bytes, pending: Option<Pending>, results: seq<ReadResult>, budget: nat, dry: bool)
    returns (k: nat)
    requires PendingOk(pending)
    ensures k <= |results|
    ensures ReadsEnd(Feed(limit, buffer, pending, Brought(results[..k])), results, budget, k,
              ReadLoop(limit, buffer, pending, true, results, budget, dry))
    decreases budget, 2
  {
    k := 0;
    assert Brought(results[..0]) == [];
    if budget > 0 && results != [] {
      if results[0].ReadInterrupted? {
        var rest := ReadsMeaning(limit, buffer, pending, results[1..], budget - 1, dry);
        k := rest + 1;
        OneMoreRead(results, rest);
        assert [] + Brought(results[1..][..rest]) == Brought(results[1..][..rest]);
        OneMoreReadEnd(Feed(limit, buffer, pending, Brought(results[..k])), results, budget, rest,
          ReadLoop(limit, buffer, pending, true, results[1..], budget - 1, dry));
      } else if results[0].Data? && results[0].bytes != "" {
        k := DataMeaning(limit, buffer, pending, results, budget, dry);
      }
    }
  }

  lemma DataMeaning(
      limit: nat, buffer: Bytes, pending: Option<Pending>, results: seq<ReadResult>, budget: nat, dry: bool)
    returns (k: nat)
    requires PendingOk(pending) && budget > 0 && results != [] && results[0].Data? && results[0].bytes != ""
    ensures k <= |results|
    ensures ReadsEnd(Feed(limit, buffer, pending, Brought(results[..k])), results, budget, k,
              ReadLoop(limit, buffer, pending, true, results, budget, dry))
    decreases budget, 1
  {
    var bytes := Clip(results[0], READ_SIZE).bytes;
    var intake := Ingest(limit, buffer, pending, bytes);
    LoopReads(limit, buffer, pending, true, results, budget, dry);
    if intake.More? {
      IntakeIsOk(limit, buffer, pending, bytes, intake);
      k := MoreMeaning(limit, intake.buffer, intake.pending, results, budget, |bytes| < READ_SIZE);
      FirstOfReads(limit, buffer, pending, results, bytes, intake, k - 1);
    } else {
      k := 1;
      OnlyRead(limit, buffer, pending, results, bytes, intake);
      OneReadEnds(intake, results, budget, ReadLoop(limit, buffer, pending, true, results, budget, dry));
    }
  }

  lemma IntakeIsOk(limit: nat, buffer: Bytes, pending: Option<Pending>, bytes: Bytes, intake: Intake)
    requires PendingOk(pending) && intake == Ingest(limit, buffer, pending, bytes) && intake.More?
    ensures PendingOk(intake.pending) && intake.buffer == buffer + bytes
  {
  }

  /** The rest of the loop, once the first read has brought some of the request. */
  lemma MoreMeaning(
      limit: nat, buffer: Bytes, pending: Option<Pending>, results: seq<ReadResult>, budget: nat, dry: bool)
    returns (k: nat)
    requires PendingOk(pending) && budget > 0 && results != [] && results[0].Data? && results[0].bytes != ""
    ensures 0 < k <= |results|
    ensures ReadsEnd(Feed(limit, buffer, pending, Brought(results[1..][..k - 1])), results, budget, k,
              ReadLoop(limit, buffer, pending, true, results[1..], budget - 1, dry))
    decreases budget, 0
  {
    var rest := ReadsMeaning(limit, buffer, pending, results[1..], budget - 1, dry);
    k := rest + 1;
    OneMoreReadEnd(Feed(limit, buffer, pending, Brought(results[1..][..rest])), results, budget, rest,
      ReadLoop(limit, buffer, pending, true, results[1..], budget - 1, dry));
  }

  lemma OneReadEnds(intake: Intake, results: seq<ReadResult>, budget: nat, end: ReadEnd)
    requires results != [] && budget > 0 && results[0].Data? && results[0].bytes != ""
    requires if intake.Ready? then end.Completes? && end.head == intake.head && end.body == intake.body
             else intake.Rejected? && end.Refuses? && end.refusal == intake.refusal
    ensures ReadsEnd(intake, results, budget, 1, end)
  {
  }

  lemma FirstOfReads(
      limit: nat, buffer: Bytes, pending: Option<Pending>, results: seq<ReadResult>, bytes: Bytes, intake: Intake,
      rest: nat)
    requires PendingOk(pending) && rest < |results| && results[0].Data? && bytes == Clip(results[0], READ_SIZE).bytes
    requires intake == Ingest(limit, buffer, pending, bytes) && intake.More?
    ensures Feed(limit, buffer, pending, Brought(results[..rest + 1])) ==
            Feed(limit, intake.buffer, intake.pending, Brought(results[1..][..rest]))
  {
    OneMoreRead(results, rest);
    FeedOne(limit, buffer, pending, bytes, Brought(results[1..][..rest]));
  }

  /** The first read ends the request. */
  lemma OnlyRead(
      limit: nat, buffer: Bytes, pending: Option<Pending>, results: seq<ReadResult>, bytes: Bytes, intake: Intake)
    requires PendingOk(pending) && results != [] && results[0].Data? && bytes == Clip(results[0], READ_SIZE).bytes
    requires intake == Ingest(limit, buffer, pending, bytes) && !intake.More?
    ensures Feed(limit, buffer, pending, Brought(results[..1])) == intake
  {
    OneMoreRead(results, 0);
    assert Brought(results[1..][..0]) == [];
    FeedOne(limit, buffer, pending, bytes, []);
  }

  lemma FeedOne(limit: nat, buffer: Bytes, pending: Option<Pending>, bytes: Bytes, more: seq<Bytes>)
    requires PendingOk(pending)
    ensures var intake := Ingest(limit, buffer, pending, bytes);
            Feed(limit, buffer, pending, [bytes] + more) ==
              if intake.More? then Feed(limit, buffer + bytes, intake.pending, more) else intake
  {
    assert ([bytes] + more)[1..] == more;
  }

  lemma OneMoreRead(results: seq<ReadResult>, rest: nat)
    requires rest < |results|
    ensures Brought(results[..rest + 1]) ==
      (if results[0].Data? then [Clip(results[0], READ_SIZE).bytes] else []) + Brought(results[1..][..rest])
  {
    assert results[..rest + 1][1..] == results[1..][..rest];
  }

  lemma OneMoreReadEnd(fed: Intake, results: seq<ReadResult>, budget: nat, rest: nat, end: ReadEnd)
    requires results != [] && budget > 0 && Arriving([results[0]])
    requires ReadsEnd(fed, results[1..], budget - 1, rest, end)
    ensures ReadsEnd(fed, results, budget, rest + 1, end)
  {
    assert results[0] == [results[0]][0];
    forall i | 0 <= i < rest + 1
      ensures results[i].ReadInterrupted? || (results[i].Data? && results[i].bytes != "")
    {
      if i > 0 {
        assert results[1..][..rest][i - 1] == results[i];
      }
    }
  }

  // ---------------------------------------------------------------- how a connection leaves

  predicate Left(next: Next, cause: Cause) { next.Leaves? && next.cause == cause }

  /** A response of the server's own is over: there is no file stream, or it has ended (`fails`: with an error). */
  ghost predicate ResponseOver(c: Connection, ready: bool, fails: bool) {
    c.phase.WritingResponse? && if c.staticStream.Some? then ready && c.staticStream.value == Exchange.Stream([], fails)
                                else !fails
  }

  /** Exactly how a writable client leaves: with all of its response; at a shutdown with all there is of an upstream's;
      or because a write fails, its file does, or it cannot be registered to go on. */
  lemma LeavesOnWrite(setup: Setup, e: Entry, draining: bool, k: Kernel)
    requires Conserves(setup, e)
    ensures var next, end := OnWritable(e, draining, k),
              Writes(e.conn.writeOffset, |e.conn.writeBuffer|, k.clientWrites, MAX_WRITES_PER_EVENT).1;
            && (Left(next, Delivered) <==> end.AllWritten? && ResponseOver(e.conn, k.ready, false))
            && (Left(next, CutShort) <==> end.AllWritten? && e.conn.phase.Proxying? && draining)
            && !Left(next, UpstreamEnded)
            && (Left(next, Aborted) <==>
                  || end.Broken?
                  || (end.AllWritten? && ResponseOver(e.conn, k.ready, true))
                  || (end.AllWritten? && !k.registersClient && !e.conn.phase.WritingResponse?
                      && !(e.conn.phase.Proxying? && draining)))
            && (next.Fails? <==>
                  && end.AllWritten? && !k.registersClient && e.conn.staticStream.Some?
                  && !(k.ready && e.conn.staticStream.value.chunks == []))
  {
  }

  /** Exactly how a readable client leaves: it has hung up or its socket has failed, or the answer cannot be registered;
      while its request is with an upstream, only the former. */
  lemma LeavesOnRead(setup: Setup, e: Entry, k: Kernel)
    requires Conserves(setup, e)
    ensures var next := OnReadable(setup, e, k);
            && !next.Fails? && (next.Leaves? ==> Left(next, Aborted))
            && (HandlesRequest(e.conn.phase) ==> (next.Leaves? <==> HangsUp(k.clientReads, MAX_READS_PER_EVENT)))
            && (!HandlesRequest(e.conn.phase) ==>
                  var end := ReadsOf(setup, e.conn, k.clientReads);
                  next.Leaves? <==> end.Closes? || (Answers(setup, end, k.plan) && !k.registersClient))
  {
    if !HandlesRequest(e.conn.phase) {
      LeavesAfterReads(setup, e, ReadsOf(setup, e.conn, k.clientReads), k);
    }
  }

  lemma LeavesAfterReads(setup: Setup, e: Entry, end: ReadEnd, k: Kernel)
    ensures var next := OnReads(setup, e, end, k.plan, k.registersClient);
            && !next.Fails? && (next.Leaves? ==> Left(next, Aborted))
            && (next.Leaves? <==> end.Closes? || (Answers(setup, end, k.plan) && !k.registersClient))
  {
  }

  /** The server answers what it has read by itself. */
  ghost predicate Answers(setup: Setup, end: ReadEnd, plan: Routing) {
    end.Refuses? || (end.Completes? && !Resolves(setup, end, plan))
  }

  /** What it has read goes to an upstream. */
  ghost predicate Resolves(setup: Setup, end: ReadEnd, plan: Routing) {
    end.Completes? && plan.Forward? && plan.resolverRuns && setup.forward(plan.url, end.head, end.body).Some?
    && |setup.forward(plan.url, end.head, end.body).value| <= setup.maxRead
  }

  /** A client that waits for an upstream hangs up exactly if, before anything else ends the loop, a read gets nothing
      or fails. */
  lemma {:induction false} HangsUpMeaning(results: seq<ReadResult>, budget: nat) returns (k: nat)
    ensures k <= |results| && k <= budget && Arriving(results[..k])
    ensures HangsUp(results, budget) <==>
              k < |results| && k < budget && (results[k] == Data("") || results[k].ReadFailed?)
    ensures !HangsUp(results, budget) ==> k == |results| || k == budget || results[k].ReadWouldBlock?
    decreases budget
  {
    k := 0;
    if budget > 0 && results != []
      && (results[0].ReadInterrupted? || (results[0].Data? && results[0].bytes != "")) {
      var rest := HangsUpMeaning(results[1..], budget - 1);
      k := rest + 1;
      forall i | 0 <= i < k
        ensures results[i].ReadInterrupted? || (results[i].Data? && results[i].bytes != "")
      {
        if i > 0 {
          assert results[1..][..rest][i - 1] == results[i];
        }
      }
    }
  }

  /** Exactly how the upstream's side makes a client leave: the response has ended; or the upstream fails, or the client
      cannot be registered, once some of the response has been passed on; or no answer can be registered. */
  lemma LeavesOnUpstream(setup: Setup, e: Entry, k: Kernel)
    requires Conserves(setup, e) && e.conn.phase.Proxying?
    ensures var p, read, write := e.conn.phase.proxy, OnUpstreamReadable(setup, e, k), OnUpstreamWritable(setup, e, k);
            && (Left(read, UpstreamEnded) <==> AwaitsUpstream(e.conn) && ReadOf(setup, k) == Data(""))
            && (Left(read, Aborted) <==>
                  && AwaitsUpstream(e.conn)
                  && (|| (ReadOf(setup, k).Data? && ReadOf(setup, k) != Data("") && !k.registersClient)
                      || (ReadOf(setup, k).ReadFailed? && (p.responseStarted || !k.registersClient))))
            && !Left(read, Delivered) && !Left(read, CutShort) && !read.Fails?
            && (write.Leaves? ==> Left(write, Aborted) && !k.registersClient && UpstreamFails(p, k)) && !write.Fails?
            && (UpstreamFails(p, k) && !k.registersClient ==> Left(write, Aborted))
  {
  }

  /** The upstream refuses the connection, a write to it fails, or it cannot be registered for its response. */
  ghost predicate UpstreamFails(p: ProxyState, k: Kernel)
    requires p.requestOffset <= |p.requestBuffer|
  {
    var end := Writes(p.requestOffset, |p.requestBuffer|, k.upstreamWrites, MAX_WRITES_PER_EVENT).1;
    && !p.phase.ReadingResponse?
    && (|| (p.phase.Connecting? && !k.upstreamConnected)
        || end.Broken?
        || (end.AllWritten? && !k.registersUpstream))
  }

  /** The first read that is not interrupted decides, and brings no more than one buffer and the write limit hold. */
  lemma {:induction false} ReadMeaning(results: seq<ReadResult>) returns (k: nat)
    ensures k <= |results| && forall i | 0 <= i < k :: results[i].ReadInterrupted?
    ensures FirstRead(results) == if k == |results| then ReadWouldBlock else results[k]
  {
    k := 0;
    if results != [] && results[0].ReadInterrupted? {
      var rest := ReadMeaning(results[1..]);
      k := rest + 1;
    }
  }

  // ---------------------------------------------------------------- what goes through

  ghost function LogAfter(e: Entry, next: Next): Log {
    match next
    case Stays(after) => after.log
    case Leaves(_, log) => log
    case Fails => e.log
  }

  /** The bytes that a step moves: to the client, from the upstream, to it. */
  ghost predicate Moves(e: Entry, next: Next, toClient: Bytes, fromUpstream: Bytes, toUpstream: Bytes) {
    var log := LogAfter(e, next);
    && log.toClient == e.log.toClient + toClient
    && log.fromUpstream == e.log.fromUpstream + fromUpstream
    && log.toUpstream == e.log.toUpstream + toUpstream
  }

  lemma NothingMoves(e: Entry, next: Next)
    requires LogAfter(e, next).toClient == e.log.toClient && LogAfter(e, next).fromUpstream == e.log.fromUpstream
    requires LogAfter(e, next).toUpstream == e.log.toUpstream
    ensures Moves(e, next, "", "", "")
  {
    assert e.log.toClient + "" == e.log.toClient && e.log.fromUpstream + "" == e.log.fromUpstream;
    assert e.log.toUpstream + "" == e.log.toUpstream;
  }

  /** A writable client gets exactly the bytes that its socket took. */
  lemma WriteMoves(setup: Setup, e: Entry, draining: bool, k: Kernel)
    requires Conserves(setup, e) && !OnWritable(e, draining, k).Fails?
    ensures var to := Writes(e.conn.writeOffset, |e.conn.writeBuffer|, k.clientWrites, MAX_WRITES_PER_EVENT).0;
            Moves(e, OnWritable(e, draining, k), e.conn.writeBuffer[e.conn.writeOffset..to], "", "")
  {
    var (to, end) := Writes(e.conn.writeOffset, |e.conn.writeBuffer|, k.clientWrites, MAX_WRITES_PER_EVENT);
    AfterWritesNothingMoves(Sent(e, to, end), end, draining, k);
    NothingMoves(e, Stays(e));
  }

  /** Only the flags of the log may differ. */
  ghost predicate SameTraffic(a: Log, b: Log) {
    && b.toClient == a.toClient && b.fromUpstream == a.fromUpstream && b.toUpstream == a.toUpstream
    && b.responses == a.responses
  }

  lemma AfterWritesNothingMoves(e: Entry, end: WriteEnd, draining: bool, k: Kernel)
    ensures SameTraffic(e.log, LogAfter(e, AfterWrites(e, end, draining, k)))
  {
    if end.AllWritten? {
      DrainedNothingMoves(e, draining, k);
    }
  }

  lemma DrainedNothingMoves(e: Entry, draining: bool, k: Kernel)
    ensures SameTraffic(e.log, LogAfter(e, OnDrained(e, draining, k.ready, k.registersClient)))
  {
    if e.conn.staticStream.Some? {
      ChunkNothingMoves(e, k);
    }
  }

  lemma ChunkNothingMoves(e: Entry, k: Kernel)
    requires e.conn.staticStream.Some?
    ensures SameTraffic(e.log, LogAfter(e, NextChunk(e, k.ready, k.registersClient)))
  {
  }

  /** A readable upstream gives exactly the bytes that one read brings, if it is their turn. */
  lemma UpstreamReadMoves(setup: Setup, e: Entry, k: Kernel)
    requires Conserves(setup, e)
    ensures Moves(e, OnUpstreamReadable(setup, e, k), "",
              if AwaitsUpstream(e.conn) && ReadOf(setup, k).Data? then ReadOf(setup, k).bytes else "", "")
  {
    NothingMoves(e, Stays(e));
    if AwaitsUpstream(e.conn) {
      AfterReadMoves(setup, e, ReadOf(setup, k), k);
    }
  }

  lemma AfterReadMoves(setup: Setup, e: Entry, result: ReadResult, k: Kernel)
    requires e.conn.phase.Proxying?
    ensures Moves(e, AfterRead(setup, e, result, k.registersClient), "", if result.Data? then result.bytes else "", "")
  {
    assert e.log.toClient + "" == e.log.toClient && e.log.toUpstream + "" == e.log.toUpstream;
    assert e.log.fromUpstream + "" == e.log.fromUpstream;
    if result.ReadFailed? {
      FailureNothingMoves(setup, e, Exchange.ResponseFailed, k);
    }
  }

  /** A writable upstream gets exactly the bytes of the request that its socket took. */
  lemma UpstreamWriteMoves(setup: Setup, e: Entry, k: Kernel)
    requires Conserves(setup, e) && e.conn.phase.Proxying?
    ensures var p := e.conn.phase.proxy;
            var to := Writes(p.requestOffset, |p.requestBuffer|, k.upstreamWrites, MAX_WRITES_PER_EVENT).0;
            Moves(e, OnUpstreamWritable(setup, e, k), "", "",
              if p.phase.ReadingResponse? || (p.phase.Connecting? && !k.upstreamConnected) then ""
              else p.requestBuffer[p.requestOffset..to])
  {
    var p := e.conn.phase.proxy;
    if p.phase.ReadingResponse? {
      NothingMoves(e, Stays(e));
    } else if p.phase.Connecting? && !k.upstreamConnected {
      FailureNothingMoves(setup, e, Exchange.ConnectionFailed, k);
      NothingMoves(e, OnUpstreamWritable(setup, e, k));
    } else {
      var (to, end) := Writes(p.requestOffset, |p.requestBuffer|, k.upstreamWrites, MAX_WRITES_PER_EVENT);
      var sent := Forwarded(e, to, end.Blocked?);
      ForwardingNothingMoves(setup, sent, end, k);
      assert e.log.toClient + "" == e.log.toClient && e.log.fromUpstream + "" == e.log.fromUpstream;
    }
  }

  lemma FailureNothingMoves(setup: Setup, e: Entry, notice: Notice, k: Kernel)
    requires e.conn.phase.Proxying?
    ensures var log := LogAfter(e, Fail(setup, e, notice, k.registersClient));
            log.toClient == e.log.toClient && log.fromUpstream == e.log.fromUpstream
              && log.toUpstream == e.log.toUpstream
  {
  }

  lemma ForwardingNothingMoves(setup: Setup, e: Entry, end: WriteEnd, k: Kernel)
    requires e.conn.phase.Proxying?
    ensures var log := LogAfter(e, AfterForwarding(setup, e, end, k));
            log.toClient == e.log.toClient && log.fromUpstream == e.log.fromUpstream
              && log.toUpstream == e.log.toUpstream
  {
    FailureNothingMoves(setup, e, Exchange.ConnectionFailed, k);
  }

  // ---------------------------------------------------------------- what the server answers

  /** The responses of the server's own that a step begins. */
  ghost predicate BeginsOnly(e: Entry, next: Next, begun: seq<Bytes>) {
    LogAfter(e, next).responses == e.log.responses + begun
  }

  lemma BeginsNone(e: Entry, next: Next)
    requires LogAfter(e, next).responses == e.log.responses
    ensures BeginsOnly(e, next, [])
  {
    assert e.log.responses + [] == e.log.responses;
  }

  /** A notice, or the one that says that it is too long. */
  ghost function Said(setup: Setup, notice: Notice): seq<Bytes> {
    if |setup.render(notice)| <= setup.maxWrite then [setup.render(notice)]
    else [setup.render(Exchange.ResponseTooLarge)]
  }

  /** What the server answers to what it has read, whole. */
  ghost function AnswerTo(setup: Setup, end: ReadEnd, plan: Routing): seq<Bytes> {
    if end.Refuses? then Said(setup, Exchange.Refused(end.refusal))
    else if !end.Completes? || Resolves(setup, end, plan) then []
    else
      match plan
      case Respond(status, text) => Said(setup, Exchange.Configured(status, text))
      case Serve(head, stream) =>
        var contents := if stream.Some? then Flatten(stream.value.chunks) else "";
        if |head| <= setup.maxWrite then [head + contents]
        else if contents == "" then [setup.render(Exchange.ResponseTooLarge)]
        else [head + contents, setup.render(Exchange.ResponseTooLarge) + contents]
      case NoUpstream => Said(setup, Exchange.BadUpstream)
      case Forward(_, _) => Said(setup, Exchange.ConnectionFailed)
  }

  /** Exactly what a client that is reading is answered by the server itself. */
  lemma AnswersOnRead(setup: Setup, e: Entry, k: Kernel)
    requires Conserves(setup, e) && e.conn.phase.Reading?
    ensures var next, end := OnReadable(setup, e, k), ReadsOf(setup, e.conn, k.clientReads);
            && BeginsOnly(e, next, if next.Stays? then AnswerTo(setup, end, k.plan) else [])
            && (next.Stays? ==>
                  next.entry.conn.phase ==
                  if Answers(setup, end, k.plan) then WritingResponse
                  else if end.Completes?
                  then Resolving(setup.forward(k.plan.url, end.head, end.body).value) else Reading(end.pending))
  {
    AnswersAfterReads(setup, e, ReadsOf(setup, e.conn, k.clientReads), k);
  }

  lemma AnswersAfterReads(setup: Setup, e: Entry, end: ReadEnd, k: Kernel)
    requires e.conn.phase.Reading? && e.conn.staticStream == None
    ensures var next := OnReads(setup, e, end, k.plan, k.registersClient);
            && BeginsOnly(e, next, if next.Stays? then AnswerTo(setup, end, k.plan) else [])
            && (next.Stays? ==>
                  next.entry.conn.phase ==
                  if Answers(setup, end, k.plan) then WritingResponse
                  else if end.Completes?
                  then Resolving(setup.forward(k.plan.url, end.head, end.body).value) else Reading(end.pending))
  {
    if end.Completes? {
      AnswersRequest(setup, e.(conn := e.conn.(readBuffer := end.buffer, phase := Reading(None))), end, k);
    } else if end.Refuses? {
      NoticeIsSaid(setup, Exchange.Refused(end.refusal));
    }
    assert e.log.responses + [] == e.log.responses;
  }

  lemma NoticeIsSaid(setup: Setup, notice: Notice)
    ensures Opening(setup, setup.render(notice), None) == Said(setup, notice)
  {
    assert setup.render(notice) + "" == setup.render(notice);
  }

  lemma NoticeBegins(setup: Setup, e: Entry, notice: Notice)
    requires e.conn.staticStream == None
    ensures BeginsOnly(e, Respond(setup, e, setup.render(notice), true), Said(setup, notice))
  {
    NoticeIsSaid(setup, notice);
  }

  lemma FailureBegins(setup: Setup, e: Entry, notice: Notice)
    requires Conserves(setup, e) && e.conn.phase.Proxying?
    ensures BeginsOnly(e, Fail(setup, e, notice, true), if e.conn.phase.proxy.responseStarted then []
              else Said(setup, notice))
  {
    NoticeIsSaid(setup, notice);
    assert e.log.responses + [] == e.log.responses;
  }

  lemma AnswersRequest(setup: Setup, e: Entry, end: ReadEnd, k: Kernel)
    requires e.conn.phase.Reading? && e.conn.staticStream == None && end.Completes?
    ensures var next := OnRequest(setup, e, end.head, end.body, k.plan, k.registersClient);
            && BeginsOnly(e, next, if next.Stays? then AnswerTo(setup, end, k.plan) else [])
            && (next.Stays? ==>
                  next.entry.conn.phase ==
                  if Answers(setup, end, k.plan) then WritingResponse
                  else Resolving(setup.forward(k.plan.url, end.head, end.body).value))
  {
    PhaseOfRequest(setup, e, end, k);
    BeginsNone(e, Stays(e));
    if k.registersClient {
      match k.plan {
        case Respond(status, text) => NoticeBegins(setup, e, Exchange.Configured(status, text));
        case Serve(head, stream) => FileBegins(setup, e, head, stream);
        case NoUpstream => NoticeBegins(setup, e, Exchange.BadUpstream);
        case Forward(_, _) => NoticeBegins(setup, e, Exchange.ConnectionFailed);
      }
    }
  }

  lemma PhaseOfRequest(setup: Setup, e: Entry, end: ReadEnd, k: Kernel)
    requires e.conn.phase.Reading? && end.Completes?
    ensures var next := OnRequest(setup, e, end.head, end.body, k.plan, k.registersClient);
            && (next.Leaves? ==> !k.registersClient && LogAfter(e, next) == e.log)
            && (next.Stays? ==>
                  next.entry.conn.phase ==
                  if Answers(setup, end, k.plan) then WritingResponse
                  else Resolving(setup.forward(k.plan.url, end.head, end.body).value))
  {
  }

  lemma FileBegins(setup: Setup, e: Entry, head: Exchange.Piece, stream: Option<Stream>)
    ensures BeginsOnly(e, Respond(setup, e.(conn := e.conn.(staticStream := stream)), head, true),
              var contents := if stream.Some? then Flatten(stream.value.chunks) else "";
              if |head| <= setup.maxWrite then [head + contents]
              else if contents == "" then [setup.render(Exchange.ResponseTooLarge)]
              else [head + contents, setup.render(Exchange.ResponseTooLarge) + contents])
  {
  }

  /** A response of the server's own is displaced by another exactly if the client is refused for what it sends while
      the response is being written. */
  lemma DisplacedExactly(setup: Setup, e: Entry, k: Kernel)
    requires Conserves(setup, e) && e.conn.phase.WritingResponse?
    ensures LogAfter(e, OnReadable(setup, e, k)).responses != e.log.responses <==>
              ReadsOf(setup, e.conn, k.clientReads).Refuses? && k.registersClient
  {
    DisplacedAfterReads(setup, e, ReadsOf(setup, e.conn, k.clientReads), k);
  }

  lemma DisplacedAfterReads(setup: Setup, e: Entry, end: ReadEnd, k: Kernel)
    requires !end.Completes?
    ensures LogAfter(e, OnReads(setup, e, end, k.plan, k.registersClient)).responses != e.log.responses <==>
              end.Refuses? && k.registersClient
  {
    if end.Refuses? && k.registersClient {
      var begun := Opening(setup, setup.render(Exchange.Refused(end.refusal)), e.conn.staticStream);
      assert |e.log.responses + begun| > |e.log.responses|;
    }
  }

  /** Exactly what a client that waits for an upstream is told. */
  lemma AnswersOnResolved(
      setup: Setup, e: Entry, answer: Option<seq<nat>>, identified: bool, k: Kernel)
    requires Conserves(setup, e) && e.conn.phase.Resolving?
    ensures var next := OnResolved(setup, e, answer, identified, k);
            && (next.Leaves? ==> Left(next, Aborted) && !k.registersClient)
            && (next.Fails? <==> answer.Some? && answer.value != [] && k.upstreamConnected && !identified)
            && (next.Stays? ==> BeginsOnly(e, next,
                  if answer == None then Said(setup, Exchange.ResolutionFailed)
                  else if answer == Some([]) then Said(setup, Exchange.NoAddress)
                  else if k.upstreamConnected && k.registersUpstream then []
                  else Said(setup, Exchange.ConnectionFailed)))
            && (next.Stays? && next.entry.log.responses == e.log.responses ==>
                  next.entry.conn.phase == Proxying(ProxyState(e.conn.phase.request, 0, false, Connecting)))
  {
    NoticeBegins(setup, e, Exchange.ResolutionFailed);
    NoticeBegins(setup, e, Exchange.NoAddress);
    NoticeBegins(setup, e, Exchange.ConnectionFailed);
    assert e.log.responses + [] == e.log.responses;
  }

  /** Exactly what a client is told whose upstream fails or takes too long; only if it has received nothing. */
  lemma AnswersOnFailure(setup: Setup, e: Entry, k: Kernel)
    requires Conserves(setup, e) && e.conn.phase.Proxying? && k.registersClient
    ensures var p, write, read := e.conn.phase.proxy, OnUpstreamWritable(setup, e, k), OnUpstreamReadable(setup, e, k);
            && BeginsOnly(e, write, if UpstreamFails(p, k) then Said(setup, Exchange.ConnectionFailed) else [])
            && BeginsOnly(e, read,
                 if AwaitsUpstream(e.conn) && ReadOf(setup, k).ReadFailed? && !p.responseStarted
                 then Said(setup, Exchange.ResponseFailed) else [])
            && BeginsOnly(e, OnChore(setup, e, ExpireProxy, k),
                 if p.responseStarted then []
                 else Said(setup, Exchange.TimedOut(match p.phase
                                                    case Connecting => Exchange.ConnectingPhase
                                                    case WritingRequest => Exchange.WritingRequest
                                                    case ReadingResponse => Exchange.ReadingResponse)))
  {
    FailureOnWrite(setup, e, k);
    FailureOnRead(setup, e, k);
    FailureOnTimeout(setup, e, k);
  }

  lemma FailureOnWrite(setup: Setup, e: Entry, k: Kernel)
    requires Conserves(setup, e) && e.conn.phase.Proxying? && k.registersClient
    ensures BeginsOnly(e, OnUpstreamWritable(setup, e, k),
              if UpstreamFails(e.conn.phase.proxy, k) then Said(setup, Exchange.ConnectionFailed) else [])
  {
    var p := e.conn.phase.proxy;
    BeginsNone(e, Stays(e));
    if p.phase.Connecting? && !k.upstreamConnected {
      FailureBegins(setup, e, Exchange.ConnectionFailed);
    } else if !p.phase.ReadingResponse? {
      var (to, end) := Writes(p.requestOffset, |p.requestBuffer|, k.upstreamWrites, MAX_WRITES_PER_EVENT);
      ForwardedConserves(setup, e, to, end);
      FailureAfterForwarding(setup, Forwarded(e, to, end.Blocked?), end, k);
    }
  }

  lemma FailureAfterForwarding(setup: Setup, e: Entry, end: WriteEnd, k: Kernel)
    requires HasForwarded(e, end) && k.registersClient
    ensures BeginsOnly(e, AfterForwarding(setup, e, end, k),
              if end.Broken? || (end.AllWritten? && !k.registersUpstream) then Said(setup, Exchange.ConnectionFailed)
              else [])
  {
    NoticeIsSaid(setup, Exchange.ConnectionFailed);
    assert e.log.responses + [] == e.log.responses;
  }

  lemma FailureOnRead(setup: Setup, e: Entry, k: Kernel)
    requires Conserves(setup, e) && e.conn.phase.Proxying? && k.registersClient
    ensures BeginsOnly(e, OnUpstreamReadable(setup, e, k),
              if AwaitsUpstream(e.conn) && ReadOf(setup, k).ReadFailed? && !e.conn.phase.proxy.responseStarted
              then Said(setup, Exchange.ResponseFailed) else [])
  {
    BeginsNone(e, Stays(e));
    if AwaitsUpstream(e.conn) && ReadOf(setup, k).ReadFailed? {
      FailureBegins(setup, e, Exchange.ResponseFailed);
    } else {
      BeginsNone(e, OnUpstreamReadable(setup, e, k));
    }
  }

  lemma FailureOnTimeout(setup: Setup, e: Entry, k: Kernel)
    requires Conserves(setup, e) && e.conn.phase.Proxying? && k.registersClient
    ensures BeginsOnly(e, OnChore(setup, e, ExpireProxy, k),
              if e.conn.phase.proxy.responseStarted then []
              else Said(setup, Exchange.TimedOut(match e.conn.phase.proxy.phase
                                                 case Connecting => Exchange.ConnectingPhase
                                                 case WritingRequest => Exchange.WritingRequest
                                                 case ReadingResponse => Exchange.ReadingResponse)))
  {
    FailureBegins(setup, e, Exchange.TimedOut(Waiting(e.conn.phase.proxy.phase)));
  }

  // ---------------------------------------------------------------- events and chores

  /** What a client's event comes to: an error ends it; first it is written to, then it is read from unless the worker
      is draining; and if the client has closed, the connection stays only for bytes that are still unsent. */
  lemma ClientEventMeaning(
      setup: Setup, e: Entry, draining: bool, event: ReadyEvent, k: Kernel, later: Kernel, written: Next, read: Next)
    requires Conserves(setup, e)
    requires written == if event.writable then OnWritable(e, draining, k) else Stays(e)
    requires written.Stays? ==> Conserves(setup, written.entry)
    requires read == if !written.Stays? then written
                     else if event.readable && !draining then OnReadable(setup, written.entry, later)
                     else written
    ensures OnClientEvent(setup, e, draining, event, k, later) ==
              if event.error then Leaves(Aborted, e.log)
              else if read.Stays? && (event.readClosed || event.writeClosed)
                && read.entry.conn.writeOffset == |read.entry.conn.writeBuffer|
              then Leaves(Aborted, read.entry.log)
              else read
  {
    assert ClientWrite(e, draining, event, k) == written;
    if written.Stays? {
      assert ClientRead(setup, written.entry, draining, event, later) == read;
    }
  }

  /** What an upstream's event comes to, for a connection that has an upstream: an error is a failed connection; first
      it is written to, then it is read from; and if it has closed, reading is queued to find out whether that is the
      end. */
  lemma UpstreamEventMeaning(
      setup: Setup, e: Entry, event: ReadyEvent, k: Kernel, later: Kernel, written: Next, read: Next)
    requires Conserves(setup, e)
    requires written == if event.writable then OnUpstreamWritable(setup, e, k) else Stays(e)
    requires read == if written.Stays? && event.readable then OnUpstreamReadable(setup, written.entry, later)
                     else written
    ensures OnUpstreamEvent(setup, e, event, k, later) ==
              if !e.conn.phase.Proxying? then Stays(e)
              else if event.error then Fail(setup, e, Exchange.ConnectionFailed, k.registersClient)
              else if read.Stays? && (event.readClosed || event.writeClosed)
              then Stays(read.entry.(upstreamReadQueued := true))
              else read
  {
    assert UpstreamWrite(setup, e, event, k) == written;
    if written.Stays? {
      assert UpstreamRead(setup, written.entry, event, later) == read;
    }
  }

  /** What the chores do: a name that takes too long is a 504, and an idle client is dropped unless its request is with
      an upstream. */
  lemma ChoreMeaning(setup: Setup, e: Entry, k: Kernel)
    requires Conserves(setup, e)
    ensures e.conn.phase.Resolving? && k.registersClient ==>
              BeginsOnly(e, OnChore(setup, e, ExpireResolution, k),
                Said(setup, Exchange.TimedOut(Exchange.ResolvingPhase)))
    ensures !e.conn.phase.Resolving? ==> OnChore(setup, e, ExpireResolution, k) == Stays(e)
    ensures !e.conn.phase.Proxying? ==> OnChore(setup, e, ExpireProxy, k) == Stays(e)
    ensures OnChore(setup, e, CloseIdle, k) ==
              if e.conn.phase.Resolving? || e.conn.phase.Proxying? then Stays(e) else Leaves(Aborted, e.log)
    ensures e.conn.staticStream == None || e.conn.writeOffset != |e.conn.writeBuffer| ==>
              OnChore(setup, e, PumpStream, k) == Stays(e)
  {
    if e.conn.phase.Resolving? {
      NoticeBegins(setup, e, Exchange.TimedOut(Exchange.ResolvingPhase));
    }
  }
}
