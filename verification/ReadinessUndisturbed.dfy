/** Exchanges of the readiness worker that nothing goes wrong with run to their end: a reply, a file, a relayed
    response, a proxied request. Reads and writes may be cut, interrupted and refused for a while at will. */
module ReadinessUndisturbed {
  import opened Common
  import opened Http
  import opened Readiness
  import opened ReadinessOutcomes
  import Exchange

  /** What the worker does to a connection, step by step, until it leaves. */
  datatype Act = Act(deed: Deed, k: Kernel)

  ghost function Course(setup: Setup, e: Entry, acts: seq<Act>): Next
    decreases |acts|
  {
    if acts == [] then Stays(e)
    else
      match Do(setup, e, acts[0].deed, acts[0].k)
      case Stays(after) => Course(setup, after, acts[1..])
      case other => other
  }

  /** The acts make this of a connection. */
  ghost predicate Leads(setup: Setup, e: Entry, acts: seq<Act>, next: Next) {
    exists s :: s == setup && Course(s, e, acts) == next
  }

  lemma LeadsNowhere(setup: Setup, e: Entry)
    ensures Leads(setup, e, [], Stays(e))
  {
    assert Course(setup, e, []) == Stays(e);
  }

  lemma LeadsOne(setup: Setup, e: Entry, act: Act, next: Next)
    requires next == Do(setup, e, act.deed, act.k)
    ensures Leads(setup, e, [act], next)
  {
    assert [act][1..] == [];
    assert Course(setup, e, [act]) == next;
  }

  lemma {:induction false} CourseThen(setup: Setup, e: Entry, first: seq<Act>, middle: Entry, second: seq<Act>)
    requires Course(setup, e, first) == Stays(middle)
    ensures Course(setup, e, first + second) == Course(setup, middle, second)
    decreases |first|
  {
    if first == [] {
      assert first + second == second;
    } else {
      assert (first + second)[1..] == first[1..] + second;
      CourseThen(setup, Do(setup, e, first[0].deed, first[0].k).entry, first[1..], middle, second);
    }
  }

  lemma LeadsThen(setup: Setup, e: Entry, first: seq<Act>, middle: Entry, second: seq<Act>, next: Next)
    requires Leads(setup, e, first, Stays(middle)) && Leads(setup, middle, second, next)
    ensures Leads(setup, e, first + second, next)
  {
    CourseThen(setup, e, first, middle, second);
    assert Course(setup, e, first + second) == next;
  }

  // ---------------------------------------------------------------- writing to the client

  /** As often as the client is writable its socket takes something, nothing, or all that is left; in the end all of
      it. */
  ghost predicate Flushes(offset: nat, length: nat, kernels: seq<Kernel>)
    requires offset <= length
    decreases |kernels|
  {
    kernels != [] &&
    var (to, end) := Writes(offset, length, kernels[0].clientWrites, MAX_WRITES_PER_EVENT);
    if end.AllWritten? then |kernels| == 1 && kernels[0].registersClient
    else !end.Broken? && Flushes(to, length, kernels[1..])
  }

  ghost function WriteActs(kernels: seq<Kernel>): seq<Act> {
    if kernels == [] then [] else [Act(WriteClient, kernels[0])] + WriteActs(kernels[1..])
  }

  /** The client has the rest of what was queued. */
  ghost predicate AllSent(e: Entry, after: Entry)
    requires WriteInRange(e)
  {
    && after.conn == e.conn.(writeOffset := |e.conn.writeBuffer|)
    && after.log.toClient == e.log.toClient + e.conn.writeBuffer[e.conn.writeOffset..]
    && after.log.fromUpstream == e.log.fromUpstream && after.log.toUpstream == e.log.toUpstream
  }

  lemma OneWrite(setup: Setup, e: Entry, k: Kernel) returns (sent: Entry)
    requires WriteInRange(e) && (e.conn.phase.WritingResponse? || e.conn.phase.Proxying?)
    ensures WriteInRange(sent)
    ensures var (to, end) := Writes(e.conn.writeOffset, |e.conn.writeBuffer|, k.clientWrites, MAX_WRITES_PER_EVENT);
            && (end.AllWritten? ==>
                  AllSent(e, sent) && Do(setup, e, WriteClient, k) ==
                    OnDrained(sent, false, k.ready, k.registersClient))
            && (!end.AllWritten? && !end.Broken? ==>
                  && Do(setup, e, WriteClient, k) == Stays(sent) && sent.conn == e.conn.(writeOffset := to)
                  && forall after | AllSent(sent, after) :: AllSent(e, after))
  {
    var (to, end) := Writes(e.conn.writeOffset, |e.conn.writeBuffer|, k.clientWrites, MAX_WRITES_PER_EVENT);
    var moved := Sent(e, to, end);
    BytesMove(e.log.toClient, e.conn.writeBuffer, e.conn.writeOffset, to, "");
    sent := if end.Spent? && e.conn.phase.WritingResponse? then moved.(writeQueued := true) else moved;
    assert end.AllWritten? ==> e.conn.writeBuffer[e.conn.writeOffset..to] == e.conn.writeBuffer[e.conn.writeOffset..];
  }

  lemma {:induction false} FlushLeads(setup: Setup, e: Entry, kernels: seq<Kernel>) returns (sent: Entry)
    requires WriteInRange(e) && (e.conn.phase.WritingResponse? || e.conn.phase.Proxying?)
    requires Flushes(e.conn.writeOffset, |e.conn.writeBuffer|, kernels)
    ensures kernels != [] && AllSent(e, sent)
    ensures Leads(setup, e, WriteActs(kernels), OnDrained(sent, false, kernels[|kernels| - 1].ready, true))
    decreases |kernels|
  {
    var k := kernels[0];
    var (to, end) := Writes(e.conn.writeOffset, |e.conn.writeBuffer|, k.clientWrites, MAX_WRITES_PER_EVENT);
    var first := OneWrite(setup, e, k);
    if end.AllWritten? {
      sent := first;
      assert WriteActs(kernels[1..]) == [] && WriteActs(kernels) == [Act(WriteClient, k)];
      LeadsOne(setup, e, Act(WriteClient, k), OnDrained(sent, false, k.ready, true));
    } else {
      sent := FlushLeads(setup, first, kernels[1..]);
      LeadsOne(setup, e, Act(WriteClient, k), Stays(first));
      LeadsThen(setup, e, [Act(WriteClient, k)], first, WriteActs(kernels[1..]),
        OnDrained(sent, false, kernels[|kernels| - 1].ready, true));
    }
  }

  /** A connection whose response, or all there is of it, is delivered. */
  ghost predicate Served(next: Next, response: Bytes) { Left(next, Delivered) && next.log.toClient == response }

  /** A reply of the server's own is written to its end. */
  lemma WholeReply(setup: Setup, e: Entry, kernels: seq<Kernel>)
    requires Conserves(setup, e) && e.conn.phase.WritingResponse? && e.conn.staticStream == None
    requires |e.log.responses| == 1 && Flushes(e.conn.writeOffset, |e.conn.writeBuffer|, kernels)
    ensures exists next :: Leads(setup, e, WriteActs(kernels), next) && Served(next, e.log.responses[0])
  {
    var sent := FlushLeads(setup, e, kernels);
    var next := OnDrained(sent, false, kernels[|kernels| - 1].ready, true);
    assert e.conn.writeBuffer[e.conn.writeOffset..] + "" == e.conn.writeBuffer[e.conn.writeOffset..];
    assert Leads(setup, e, WriteActs(kernels), next);
  }

  // ---------------------------------------------------------------- a file

  /** The worker looks again and again whether the file stream has something, until it has. */
  ghost predicate Awaits(kernels: seq<Kernel>) {
    && kernels != [] && kernels[0].registersClient
    && if |kernels| == 1 then kernels[0].ready else !kernels[0].ready && Awaits(kernels[1..])
  }

  ghost function PumpActs(kernels: seq<Kernel>): seq<Act> {
    if kernels == [] then [] else [Act(Pump, kernels[0])] + PumpActs(kernels[1..])
  }

  lemma {:induction false} PumpsLead(setup: Setup, e: Entry, kernels: seq<Kernel>)
    requires e.conn.staticStream.Some? && e.conn.Drained() && Awaits(kernels)
    ensures Leads(setup, e, PumpActs(kernels), NextChunk(e, true, true))
    decreases |kernels|
  {
    var act := Act(Pump, kernels[0]);
    if |kernels| == 1 {
      assert PumpActs(kernels[1..]) == [] && PumpActs(kernels) == [act];
      LeadsOne(setup, e, act, NextChunk(e, true, true));
    } else {
      PumpsLead(setup, e, kernels[1..]);
      LeadsOne(setup, e, act, Stays(e));
      LeadsThen(setup, e, [act], e, PumpActs(kernels[1..]), NextChunk(e, true, true));
    }
  }

  /** One piece of a file is written, and the worker waits for the next one if it has to. */
  ghost predicate HandsOver(offset: nat, length: nat, writes: seq<Kernel>, pumps: seq<Kernel>)
    requires offset <= length
  {
    && Flushes(offset, length, writes) && writes != []
    && if writes[|writes| - 1].ready then pumps == [] else Awaits(pumps)
  }

  lemma PieceLeads(setup: Setup, e: Entry, writes: seq<Kernel>, pumps: seq<Kernel>) returns (sent: Entry)
    requires WriteInRange(e) && e.conn.phase.WritingResponse? && e.conn.staticStream.Some?
    requires HandsOver(e.conn.writeOffset, |e.conn.writeBuffer|, writes, pumps)
    ensures AllSent(e, sent)
    ensures Leads(setup, e, WriteActs(writes) + PumpActs(pumps), NextChunk(sent, true, true))
  {
    sent := FlushLeads(setup, e, writes);
    if writes[|writes| - 1].ready {
      assert PumpActs(pumps) == [] && WriteActs(writes) + [] == WriteActs(writes);
    } else {
      PumpsLead(setup, sent, pumps);
      LeadsThen(setup, e, WriteActs(writes), sent, PumpActs(pumps), NextChunk(sent, true, true));
    }
  }

  ghost function FileActs(writes: seq<seq<Kernel>>, pumps: seq<seq<Kernel>>): seq<Act>
    requires |writes| == |pumps|
  {
    if writes == [] then [] else WriteActs(writes[0]) + PumpActs(pumps[0]) + FileActs(writes[1..], pumps[1..])
  }

  ghost predicate WritesFile(
      offset: nat, length: nat, chunks: seq<Exchange.Piece>, writes: seq<seq<Kernel>>, pumps: seq<seq<Kernel>>)
    requires offset <= length
    decreases |chunks|
  {
    && |writes| == |pumps| == |chunks| + 1 && HandsOver(offset, length, writes[0], pumps[0])
    && (chunks != [] ==> WritesFile(0, |chunks[0]|, chunks[1..], writes[1..], pumps[1..]))
  }

  lemma NextPiece(sent: Entry)
    requires sent.conn.staticStream.Some? && sent.conn.phase.WritingResponse?
    ensures var stream, next := sent.conn.staticStream.value, NextChunk(sent, true, true);
            if stream.chunks == []
            then Left(next, if stream.fails then Aborted else Delivered) && next.log.toClient == sent.log.toClient
            else
              && next.Stays? && WriteInRange(next.entry) && next.entry.conn.phase.WritingResponse?
              && next.entry.conn.staticStream == Some(Exchange.Stream(stream.chunks[1..], stream.fails))
              && next.entry.conn.writeOffset == 0 && next.entry.conn.writeBuffer == stream.chunks[0]
              && next.entry.log.toClient == sent.log.toClient
  {
  }

  lemma TwoParts(before: Bytes, chunk: Bytes, rest: Bytes)
    ensures before + chunk[0..] + rest == before + (chunk + rest) && before + "" == before
  {
  }

  lemma {:induction false} FileLeads(
      setup: Setup, e: Entry, stream: Stream, writes: seq<seq<Kernel>>, pumps: seq<seq<Kernel>>) returns (next: Next)
    requires WriteInRange(e) && e.conn.phase.WritingResponse? && e.conn.staticStream == Some(stream)
    requires WritesFile(e.conn.writeOffset, |e.conn.writeBuffer|, stream.chunks, writes, pumps)
    ensures Leads(setup, e, FileActs(writes, pumps), next)
    ensures Left(next, if stream.fails then Aborted else Delivered)
    ensures next.log.toClient ==
            e.log.toClient + e.conn.writeBuffer[e.conn.writeOffset..] + Flatten(stream.chunks)
    decreases |stream.chunks|
  {
    var sent := PieceLeads(setup, e, writes[0], pumps[0]);
    var taken := NextChunk(sent, true, true);
    NextPiece(sent);
    var before := e.log.toClient + e.conn.writeBuffer[e.conn.writeOffset..];
    if stream.chunks == [] {
      next := taken;
      assert FileActs(writes[1..], pumps[1..]) == [];
      assert WriteActs(writes[0]) + PumpActs(pumps[0]) + [] == WriteActs(writes[0]) + PumpActs(pumps[0]);
      TwoParts(before, "", "");
    } else {
      next := FileLeads(setup, taken.entry, stream.(chunks := stream.chunks[1..]), writes[1..], pumps[1..]);
      LeadsThen(setup, e, WriteActs(writes[0]) + PumpActs(pumps[0]), taken.entry, FileActs(writes[1..], pumps[1..]),
        next);
      TwoParts(before, stream.chunks[0], Flatten(stream.chunks[1..]));
    }
  }

  /** A file response that nothing displaces is written to its end: the client has its head and every chunk of the
      stream, and if the file has not failed the connection leaves as delivered. */
  lemma WholeFile(setup: Setup, e: Entry, stream: Stream, writes: seq<seq<Kernel>>, pumps: seq<seq<Kernel>>)
    returns (next: Next)
    requires Conserves(setup, e) && e.conn.phase.WritingResponse? && e.conn.staticStream == Some(stream)
    requires |e.log.responses| == 1
    requires WritesFile(e.conn.writeOffset, |e.conn.writeBuffer|, stream.chunks, writes, pumps)
    ensures Leads(setup, e, FileActs(writes, pumps), next)
    ensures Left(next, if stream.fails then Aborted else Delivered) && next.log.toClient == e.log.responses[0]
  {
    next := FileLeads(setup, e, stream, writes, pumps);
    ThreeParts(e.log.toClient, e.conn.writeBuffer[e.conn.writeOffset..], Flatten(stream.chunks));
  }

  lemma ThreeParts(a: Bytes, b: Bytes, c: Bytes)
    ensures a + b + c == a + (b + c)
  {
  }

  // ---------------------------------------------------------------- responses that get mixed up

  /** A file's head that exceeds the write limit gives way to a notice, but the file still follows: the client gets the
      notice and then the contents, as one response that counts as delivered. */
  lemma HeadGivesWay(
      setup: Setup, e: Entry, k: Kernel, head: Exchange.Piece, stream: Stream, writes: seq<seq<Kernel>>,
      pumps: seq<seq<Kernel>>)
    returns (next: Next)
    requires Conserves(setup, e) && e.conn.phase.Reading? && k.registersClient && |head| > setup.maxWrite
    requires ReadsOf(setup, e.conn, k.clientReads).Completes? && k.plan == Exchange.Serve(head, Some(stream))
    requires !stream.fails
    requires WritesFile(0, |setup.render(Exchange.ResponseTooLarge)|, stream.chunks, writes, pumps)
    ensures Leads(setup, e, [Act(ReadClient, k)] + FileActs(writes, pumps), next)
    ensures Served(next, setup.render(Exchange.ResponseTooLarge) + Flatten(stream.chunks))
  {
    var end := ReadsOf(setup, e.conn, k.clientReads);
    var notice := setup.render(Exchange.ResponseTooLarge);
    var begun := HeadDisplaced(setup, e, end, k, head, stream);
    LeadsOne(setup, e, Act(ReadClient, k), Stays(begun));
    next := FileLeads(setup, begun, stream, writes, pumps);
    LeadsThen(setup, e, [Act(ReadClient, k)], begun, FileActs(writes, pumps), next);
    assert "" + notice[0..] == notice;
  }

  lemma HeadDisplaced(setup: Setup, e: Entry, end: ReadEnd, k: Kernel, head: Exchange.Piece, stream: Stream)
    returns (after: Entry)
    requires end.Completes? && k.registersClient && |head| > setup.maxWrite
    requires k.plan == Exchange.Serve(head, Some(stream)) && e.conn.phase.Reading?
    ensures OnReads(setup, e, end, k.plan, k.registersClient) == Stays(after)
    ensures after.conn.phase.WritingResponse? && after.conn.staticStream == Some(stream)
    ensures after.conn.writeBuffer == setup.render(Exchange.ResponseTooLarge) && after.conn.writeOffset == 0
    ensures after.log.toClient == e.log.toClient
  {
    after := OnReads(setup, e, end, k.plan, k.registersClient).entry;
  }

  /** A client that goes on sending while its file response waits for a chunk, until that exceeds the read limit, has
      the refusal put into the middle of its response. */
  lemma RefusalGetsIn(
      setup: Setup, e: Entry, k: Kernel, stream: Stream, writes: seq<seq<Kernel>>, pumps: seq<seq<Kernel>>)
    returns (next: Next)
    requires Conserves(setup, e) && e.conn.phase.WritingResponse? && e.conn.staticStream == Some(stream)
    requires ReadsOf(setup, e.conn, k.clientReads).Refuses? && k.registersClient && !stream.fails
    requires var notice := setup.render(Exchange.Refused(ReadsOf(setup, e.conn, k.clientReads).refusal));
             |notice| <= setup.maxWrite && WritesFile(0, |notice|, stream.chunks, writes, pumps)
    ensures Leads(setup, e, [Act(ReadClient, k)] + FileActs(writes, pumps), next)
    ensures var notice := setup.render(Exchange.Refused(ReadsOf(setup, e.conn, k.clientReads).refusal));
            Served(next, e.log.toClient + notice + Flatten(stream.chunks))
  {
    var end := ReadsOf(setup, e.conn, k.clientReads);
    var notice := setup.render(Exchange.Refused(end.refusal));
    var begun := RefusalQueued(setup, e, end, k, notice);
    LeadsOne(setup, e, Act(ReadClient, k), Stays(begun));
    next := FileLeads(setup, begun, stream, writes, pumps);
    LeadsThen(setup, e, [Act(ReadClient, k)], begun, FileActs(writes, pumps), next);
    assert notice[0..] == notice;
  }

  lemma RefusalQueued(setup: Setup, e: Entry, end: ReadEnd, k: Kernel, notice: Bytes) returns (after: Entry)
    requires end.Refuses? && k.registersClient && notice == setup.render(Exchange.Refused(end.refusal))
    requires |notice| <= setup.maxWrite
    ensures OnReads(setup, e, end, k.plan, k.registersClient) == Stays(after)
    ensures after.conn.phase.WritingResponse? && after.conn.staticStream == e.conn.staticStream
    ensures after.conn.writeBuffer == notice && after.conn.writeOffset == 0 && after.log.toClient == e.log.toClient
  {
    after := OnReads(setup, e, end, k.plan, k.registersClient).entry;
  }

  // ---------------------------------------------------------------- relaying a response

  ghost function RelayActs(arrivals: seq<Kernel>, writes: seq<seq<Kernel>>): seq<Act>
    requires |arrivals| == |writes|
  {
    if arrivals == [] then []
      else [Act(ReadUpstream, arrivals[0])] + WriteActs(writes[0]) + RelayActs(arrivals[1..], writes[1..])
  }

  /** Each chunk is read from the upstream and then written to the client. */
  ghost predicate RelaysAll(
      setup: Setup, chunks: seq<Exchange.Piece>, arrivals: seq<Kernel>, writes: seq<seq<Kernel>>)
  {
    && |arrivals| == |writes| == |chunks|
    && forall i | 0 <= i < |chunks| ::
         && ReadOf(setup, arrivals[i]) == Data(chunks[i]) && arrivals[i].registersClient
         && Flushes(0, |chunks[i]|, writes[i])
  }

  /** What a relayed chunk changes: the client has it, and the worker awaits the upstream again. */
  ghost predicate PassedOn(e: Entry, after: Entry, bytes: Bytes) {
    && AwaitsUpstream(after.conn) && after.conn.staticStream == e.conn.staticStream
    && after.log.toClient == e.log.toClient + bytes && after.log.fromUpstream == e.log.fromUpstream + bytes
    && after.log.toUpstream == e.log.toUpstream
  }

  lemma ChunkLeads(setup: Setup, e: Entry, chunk: Exchange.Piece, arrival: Kernel, writes: seq<Kernel>)
    returns (after: Entry)
    requires AwaitsUpstream(e.conn) && e.conn.staticStream == None
    requires ReadOf(setup, arrival) == Data(chunk) && arrival.registersClient && Flushes(0, |chunk|, writes)
    ensures PassedOn(e, after, chunk)
    ensures Leads(setup, e, [Act(ReadUpstream, arrival)] + WriteActs(writes), Stays(after))
  {
    var relayed := Relayed(e, chunk);
    LeadsOne(setup, e, Act(ReadUpstream, arrival), Stays(relayed));
    var sent := FlushLeads(setup, relayed, writes);
    assert relayed.conn.writeBuffer[0..] == chunk;
    after := OnDrained(sent, false, writes[|writes| - 1].ready, true).entry;
    LeadsThen(setup, e, [Act(ReadUpstream, arrival)], relayed, WriteActs(writes), Stays(after));
  }

  lemma {:induction false} RelayLeads(
      setup: Setup, e: Entry, chunks: seq<Exchange.Piece>, arrivals: seq<Kernel>, writes: seq<seq<Kernel>>)
    returns (after: Entry)
    requires AwaitsUpstream(e.conn) && e.conn.staticStream == None && RelaysAll(setup, chunks, arrivals, writes)
    ensures PassedOn(e, after, Flatten(chunks)) && Leads(setup, e, RelayActs(arrivals, writes), Stays(after))
    decreases |chunks|
  {
    if chunks == [] {
      after := e;
      LeadsNowhere(setup, e);
      assert e.log.toClient + "" == e.log.toClient && e.log.fromUpstream + "" == e.log.fromUpstream;
    } else {
      var next := ChunkLeads(setup, e, chunks[0], arrivals[0], writes[0]);
      assert RelaysAll(setup, chunks[1..], arrivals[1..], writes[1..]);
      after := RelayLeads(setup, next, chunks[1..], arrivals[1..], writes[1..]);
      LeadsThen(setup, e, [Act(ReadUpstream, arrivals[0])] + WriteActs(writes[0]), next,
        RelayActs(arrivals[1..], writes[1..]), Stays(after));
      ThreeParts(e.log.toClient, chunks[0], Flatten(chunks[1..]));
      ThreeParts(e.log.fromUpstream, chunks[0], Flatten(chunks[1..]));
    }
  }

  /** A relay nothing interferes with goes on until the upstream ends it: the client has every byte of every chunk, in
      order. */
  lemma WholeRelay(
      setup: Setup, e: Entry, chunks: seq<Exchange.Piece>, arrivals: seq<Kernel>, writes: seq<seq<Kernel>>,
      last: Kernel)
    returns (next: Next)
    requires AwaitsUpstream(e.conn) && e.conn.staticStream == None && RelaysAll(setup, chunks, arrivals, writes)
    requires ReadOf(setup, last) == Data("")
    ensures Leads(setup, e, RelayActs(arrivals, writes) + [Act(ReadUpstream, last)], next)
    ensures Left(next, UpstreamEnded) && next.log.toClient == e.log.toClient + Flatten(chunks)
    ensures next.log.fromUpstream == e.log.fromUpstream + Flatten(chunks) && next.log.toUpstream == e.log.toUpstream
  {
    var after := RelayLeads(setup, e, chunks, arrivals, writes);
    next := Leaves(UpstreamEnded, after.log);
    LeadsOne(setup, after, Act(ReadUpstream, last), next);
    LeadsThen(setup, e, RelayActs(arrivals, writes), after, [Act(ReadUpstream, last)], next);
  }

  // ---------------------------------------------------------------- reaching the upstream

  /** As often as the upstream is writable its socket takes something, nothing, or all that is left of the request. */
  ghost predicate Uploads(offset: nat, length: nat, kernels: seq<Kernel>)
    requires offset <= length
    decreases |kernels|
  {
    kernels != [] && kernels[0].upstreamConnected &&
    var (to, end) := Writes(offset, length, kernels[0].upstreamWrites, MAX_WRITES_PER_EVENT);
    if end.AllWritten? then |kernels| == 1 && kernels[0].registersUpstream
    else !end.Broken? && Uploads(to, length, kernels[1..])
  }

  ghost function UploadActs(kernels: seq<Kernel>): seq<Act> {
    if kernels == [] then [] else [Act(WriteUpstream, kernels[0])] + UploadActs(kernels[1..])
  }

  /** A request on its way, of which this much has been sent. */
  ghost predicate OnItsWay(e: Entry, request: Bytes, offset: nat) {
    && e.conn.phase.Proxying? && !e.conn.phase.proxy.phase.ReadingResponse?
    && e.conn.phase.proxy.requestBuffer == request && e.conn.phase.proxy.requestOffset == offset <= |request|
    && e.conn.writeBuffer == "" && e.conn.staticStream == None
    && e.log.toUpstream == request[..offset] && e.log.toClient == e.log.fromUpstream == ""
  }

  /** The upstream has the whole request, and its response is awaited. */
  ghost predicate Requested(e: Entry, request: Bytes) {
    && AwaitsUpstream(e.conn) && e.conn.staticStream == None
    && e.log.toUpstream == request && e.log.toClient == e.log.fromUpstream == ""
  }

  lemma OneUpload(setup: Setup, e: Entry, k: Kernel, request: Bytes, offset: nat) returns (after: Entry)
    requires OnItsWay(e, request, offset) && k.upstreamConnected
    ensures var (to, end) := Writes(offset, |request|, k.upstreamWrites, MAX_WRITES_PER_EVENT);
            && (end.AllWritten? && k.registersUpstream ==>
                  Requested(after, request) && Do(setup, e, WriteUpstream, k) == Stays(after))
            && (!end.AllWritten? && !end.Broken? ==>
                  OnItsWay(after, request, to) && Do(setup, e, WriteUpstream, k) == Stays(after))
  {
    var (to, end) := Writes(offset, |request|, k.upstreamWrites, MAX_WRITES_PER_EVENT);
    PrefixGrows(request, offset, to);
    assert end.AllWritten? ==> request[..to] == request;
    var next := Do(setup, e, WriteUpstream, k);
    after := if next.Stays? then next.entry else e;
  }

  lemma {:induction false} UploadLeads(setup: Setup, e: Entry, kernels: seq<Kernel>, request: Bytes, offset: nat)
    returns (after: Entry)
    requires OnItsWay(e, request, offset) && Uploads(offset, |request|, kernels)
    ensures Requested(after, request) && Leads(setup, e, UploadActs(kernels), Stays(after))
    decreases |kernels|
  {
    var act := Act(WriteUpstream, kernels[0]);
    var (to, end) := Writes(offset, |request|, kernels[0].upstreamWrites, MAX_WRITES_PER_EVENT);
    var next := OneUpload(setup, e, kernels[0], request, offset);
    LeadsOne(setup, e, act, Stays(next));
    if end.AllWritten? {
      after := next;
      assert UploadActs(kernels[1..]) == [] && UploadActs(kernels) == [act];
    } else {
      after := UploadLeads(setup, next, kernels[1..], request, to);
      LeadsThen(setup, e, [act], next, UploadActs(kernels[1..]), Stays(after));
    }
  }

  /** The read completes a request that is routed to a usable upstream, whose name is resolved and which can be
      connected to. */
  ghost predicate Proxies(
      setup: Setup, e: Entry, received: Kernel, addresses: seq<nat>, found: Kernel, request: Exchange.Piece)
  {
    && Conserves(setup, e) && e.conn.phase.Reading? && addresses != []
    && found.upstreamConnected && found.registersUpstream
    && var end := ReadsOf(setup, e.conn, received.clientReads);
       Resolves(setup, end, received.plan) && setup.forward(received.plan.url, end.head, end.body) == Some(request)
  }

  lemma StartLeads(
      setup: Setup, e: Entry, received: Kernel, addresses: seq<nat>, found: Kernel, request: Exchange.Piece)
    returns (after: Entry)
    requires Proxies(setup, e, received, addresses, found, request)
    ensures OnItsWay(after, request, 0)
    ensures Leads(setup, e, [Act(ReadClient, received), Act(Resolve(Some(addresses)), found)], Stays(after))
  {
    var end := ReadsOf(setup, e.conn, received.clientReads);
    var asking := Asking(setup, e, end, received, request);
    LeadsOne(setup, e, Act(ReadClient, received), Stays(asking));
    after := Found(setup, asking, addresses, found, request);
    LeadsOne(setup, asking, Act(Resolve(Some(addresses)), found), Stays(after));
    assert [Act(ReadClient, received)] + [Act(Resolve(Some(addresses)), found)] ==
           [Act(ReadClient, received), Act(Resolve(Some(addresses)), found)];
    LeadsThen(setup, e, [Act(ReadClient, received)], asking, [Act(Resolve(Some(addresses)), found)], Stays(after));
  }

  lemma Asking(setup: Setup, e: Entry, end: ReadEnd, k: Kernel, request: Exchange.Piece) returns (after: Entry)
    requires Conserves(setup, e) && e.conn.phase.Reading? && end == ReadsOf(setup, e.conn, k.clientReads)
    requires Resolves(setup, end, k.plan) && setup.forward(k.plan.url, end.head, end.body) == Some(request)
    ensures Do(setup, e, ReadClient, k) == Stays(after) && after.conn.phase == Resolving(request)
    ensures after.conn.writeBuffer == "" && after.conn.staticStream == None && Untouched(after.log)
  {
    after := e.(conn := e.conn.(readBuffer := end.buffer, phase := Resolving(request)));
    ForwardLeads(setup, e, end, k, request, after);
  }

  lemma ForwardLeads(setup: Setup, e: Entry, end: ReadEnd, k: Kernel, request: Exchange.Piece, after: Entry)
    requires Resolves(setup, end, k.plan) && setup.forward(k.plan.url, end.head, end.body) == Some(request)
    requires after == e.(conn := e.conn.(readBuffer := end.buffer, phase := Resolving(request)))
    ensures OnReads(setup, e, end, k.plan, k.registersClient) == Stays(after)
  {
  }

  lemma Found(setup: Setup, e: Entry, addresses: seq<nat>, k: Kernel, request: Exchange.Piece) returns (after: Entry)
    requires e.conn.phase == Resolving(request) && addresses != [] && k.upstreamConnected && k.registersUpstream
    requires e.conn.writeBuffer == "" && e.conn.staticStream == None && Untouched(e.log)
    ensures Do(setup, e, Resolve(Some(addresses)), k) == Stays(after) && OnItsWay(after, request, 0)
  {
    var proxy := ProxyState(request, 0, false, Connecting);
    after := e.(conn := e.conn.(phase := Proxying(proxy)), log := e.log.(upstreamArmed := true));
  }

  /** A proxied exchange from the read that completes its request: the upstream has the whole request, and the client
      has every byte of the response. */
  lemma WholeProxy(
      setup: Setup, e: Entry, received: Kernel, addresses: seq<nat>, found: Kernel, request: Exchange.Piece,
      uploads: seq<Kernel>, chunks: seq<Exchange.Piece>, arrivals: seq<Kernel>, writes: seq<seq<Kernel>>,
      last: Kernel)
    returns (next: Next)
    requires Proxies(setup, e, received, addresses, found, request) && Uploads(0, |request|, uploads)
    requires RelaysAll(setup, chunks, arrivals, writes) && ReadOf(setup, last) == Data("")
    ensures Leads(setup, e,
              [Act(ReadClient, received), Act(Resolve(Some(addresses)), found)]
              + (UploadActs(uploads) + (RelayActs(arrivals, writes) + [Act(ReadUpstream, last)])), next)
    ensures Left(next, UpstreamEnded) && next.log.toClient == Flatten(chunks) && next.log.toUpstream == request
  {
    var way := StartLeads(setup, e, received, addresses, found, request);
    var asked := UploadLeads(setup, way, uploads, request, 0);
    var relay := RelayActs(arrivals, writes) + [Act(ReadUpstream, last)];
    next := WholeRelay(setup, asked, chunks, arrivals, writes, last);
    assert "" + Flatten(chunks) == Flatten(chunks);
    LeadsThen(setup, way, UploadActs(uploads), asked, relay, next);
    LeadsThen(setup, e, [Act(ReadClient, received), Act(Resolve(Some(addresses)), found)], way,
      UploadActs(uploads) + relay, next);
  }
}
