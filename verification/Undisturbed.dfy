/** Exchanges that nothing goes wrong with run to their end: a reply, a file, a relayed response, a proxied request from
    its first byte to the last byte of its response. Reads and writes may be cut and interrupted at will. */
module Undisturbed {
  import opened Common
  import opened Http
  import opened Exchange
  import opened Outcomes

  // ---------------------------------------------------------------- sending to the client

  /** Reports, piece by piece and with any interruptions, that `n` bytes have been accepted by the client. */
  ghost predicate Delivers(sends: seq<Event>, n: nat)
    decreases |sends|
  {
    if n == 0 then sends == []
    else
      sends != [] && sends[0].Sent?
      && if sends[0].result in [-EAGAIN, -EINTR] then Delivers(sends[1..], n)
         else 0 < sends[0].result <= n && Delivers(sends[1..], n - sends[0].result)
  }

  /** Whether the file stream has something to deliver when the last of them comes. */
  ghost predicate EndsReady(sends: seq<Event>)
    requires sends != []
  {
    sends[|sends| - 1].Sent? && sends[|sends| - 1].ready
  }

  lemma AdvanceTwice(e: Exchange, a: nat, b: nat)
    requires e.sent + a + b <= |e.out|
    ensures Advance(Advance(e, a), b) == Advance(e, a + b)
  {
    assert e.out[e.sent..e.sent + a] + e.out[e.sent + a..e.sent + a + b] == e.out[e.sent..e.sent + a + b];
    assert e.log.toClient + e.out[e.sent..e.sent + a] + e.out[e.sent + a..e.sent + a + b] ==
           e.log.toClient + e.out[e.sent..e.sent + a + b];
  }

  /** A connection with something to send. */
  ghost predicate Sends(e: Exchange, n: nat) {
    exists stage :: stage == e.stage && InOrder(e) && IsSending(stage) && n == |e.out| - e.sent && n > 0
  }

  /** What it is once all of that is accepted. */
  ghost predicate Drained(e: Exchange, n: nat, ready: bool, after: Exchange) {
    exists x :: x == e && x.sent + n <= |x.out| && after == AfterDrain(Advance(x, n), ready)
  }

  lemma OneSend(setup: Setup, e: Exchange, event: Event, n: nat)
    requires Sends(e, n) && event.Sent?
    ensures event.result in [-EAGAIN, -EINTR] ==> Next(setup, e, event) == e
    ensures 0 < event.result < n ==> Sends(Next(setup, e, event), n - event.result)
    ensures event.result == n ==> Drained(e, n, event.ready, Next(setup, e, event))
  {
  }

  lemma DrainedLater(setup: Setup, e: Exchange, event: Event, n: nat, ready: bool, after: Exchange)
    requires Sends(e, n) && event.Sent? && 0 < event.result < n
    requires Drained(Next(setup, e, event), n - event.result, ready, after)
    ensures Drained(e, n, ready, after)
  {
    assert Next(setup, e, event) == Advance(e, event.result);
    AdvanceTwice(e, event.result, n - event.result);
  }

  /** The events make this of a connection. */
  ghost predicate Leads(setup: Setup, e: Exchange, events: seq<Event>, after: Exchange) {
    exists s :: s == setup && From(s, e, events) == after
  }

  lemma LeadsOn(setup: Setup, e: Exchange, events: seq<Event>, second: Exchange, after: Exchange)
    requires events != [] && second == Next(setup, e, events[0])
    requires if |events| == 1 then after == second else Leads(setup, second, events[1..], after)
    ensures Leads(setup, e, events, after)
  {
    if |events| == 1 {
      assert events[1..] == [];
    }
    assert From(setup, e, events) == after;
  }

  lemma {:induction false} SendsThrough(setup: Setup, e: Exchange, sends: seq<Event>, n: nat) returns (after: Exchange)
    requires Sends(e, n) && n > 0 && Delivers(sends, n)
    ensures sends != [] && Leads(setup, e, sends, after) && Drained(e, n, EndsReady(sends), after)
    decreases |sends|
  {
    var event, rest := sends[0], sends[1..];
    var second := Next(setup, e, event);
    OneSend(setup, e, event, n);
    if |sends| == 1 {
      after := second;
    } else {
      assert EndsReady(rest) == EndsReady(sends);
      if event.result in [-EAGAIN, -EINTR] {
        after := SendsThrough(setup, e, rest, n);
      } else {
        after := SendsThrough(setup, second, rest, n - event.result);
        DrainedLater(setup, e, event, n, EndsReady(rest), after);
      }
    }
    LeadsOn(setup, e, sends, second, after);
  }

  /** The same as an equation. */
  lemma SendsLead(setup: Setup, e: Exchange, sends: seq<Event>, n: nat)
    requires InOrder(e) && IsSending(e.stage) && n == |e.out| - e.sent && Delivers(sends, n)
    ensures sends != [] && From(setup, e, sends) == AfterDrain(Advance(e, n), EndsReady(sends))
  {
    var after := SendsThrough(setup, e, sends, n);
  }

  /** All of a reply is queued or sent. */
  ghost predicate Owes(e: Exchange, response: Bytes) {
    exists source ::
      source == Local(response) && e.log.sources == [source] && InOrder(e) && Conserves(e) && e.stage.Replying?
  }

  /** A reply of the server's own is sent to its end. */
  lemma WholeReply(setup: Setup, events: seq<Event>, sends: seq<Event>, response: Bytes)
    requires Owes(Run(setup, events), response)
    requires Unfinished(Run(setup, events)) && Delivers(sends, |Run(setup, events).out| - Run(setup, events).sent)
    ensures Served(Run(setup, events + sends), response)
  {
    RunThen(setup, events, sends);
    ReplyThrough(setup, Run(setup, events), sends, response);
  }

  ghost predicate Unfinished(e: Exchange) { e.sent < |e.out| }

  /** The exchange is over, and this is what the client has. */
  ghost predicate Served(e: Exchange, response: Bytes) {
    e.stage == Closed(Finished) && e.log.toClient == response
  }

  /** Every connection that replies owes some reply. */
  lemma ReplyingOwes(setup: Setup, events: seq<Event>) returns (response: Bytes)
    requires Run(setup, events).stage.Replying?
    ensures Owes(Run(setup, events), response) && Unfinished(Run(setup, events))
  {
    var sources := Run(setup, events).log.sources;
    response := sources[0].response;
    assert sources == [Local(response)];
  }

  lemma ReplyThrough(setup: Setup, e: Exchange, sends: seq<Event>, response: Bytes)
    requires Owes(e, response) && Unfinished(e) && Delivers(sends, |e.out| - e.sent)
    ensures Served(From(setup, e, sends), response)
  {
    SendsLead(setup, e, sends, |e.out| - e.sent);
    assert Unsent(e) == e.out[e.sent..] == e.out[e.sent..|e.out|];
  }

  // ---------------------------------------------------------------- a file

  /** The worker looks again and again whether the file stream has something, until it has. */
  ghost predicate Waits(pumps: seq<Event>) {
    pumps != [] && if |pumps| == 1 then pumps == [Pumped(true)] else pumps[0] == Pumped(false) && Waits(pumps[1..])
  }

  /** What happens between the end of one piece and the start of the next. */
  ghost predicate HandsOver(sends: seq<Event>, pumps: seq<Event>)
    requires sends != []
  {
    if EndsReady(sends) then pumps == [] else Waits(pumps)
  }

  lemma OnePump(setup: Setup, e: Exchange, ready: bool)
    requires InOrder(e) && e.stage.AwaitingChunk?
    ensures InOrder(Next(setup, e, Pumped(ready)))
    ensures Next(setup, e, Pumped(ready)) == NextChunk(e, e.stage.stream, ready)
    ensures !ready ==> Next(setup, e, Pumped(ready)) == e.(sent := 0)
  {
  }

  lemma {:induction false} WaitsThrough(setup: Setup, e: Exchange, pumps: seq<Event>)
    requires InOrder(e) && e.stage.AwaitingChunk? && e.sent == 0 && Waits(pumps)
    ensures From(setup, e, pumps) == NextChunk(e, e.stage.stream, true)
    decreases |pumps|
  {
    var second := Next(setup, e, pumps[0]);
    if |pumps| == 1 {
      OnePump(setup, e, true);
      assert From(setup, second, []) == second;
    } else {
      OnePump(setup, e, false);
      assert e.(sent := 0) == e;
      WaitsThrough(setup, e, pumps[1..]);
    }
  }

  /** One piece of a file is sent, and the next one is taken. */
  lemma PieceThrough(setup: Setup, e: Exchange, sends: seq<Event>, pumps: seq<Event>)
    requires InOrder(e) && e.stage.Streaming? && Delivers(sends, |e.out| - e.sent)
    requires sends != [] && HandsOver(sends, pumps)
    ensures From(setup, e, sends + pumps) == NextChunk(Advance(e, |e.out| - e.sent), e.stage.stream, true)
  {
    var n, stream := |e.out| - e.sent, e.stage.stream;
    var sent := Advance(e, n);
    FromThen(setup, e, sends, pumps);
    SendsLead(setup, e, sends, n);
    if !EndsReady(sends) {
      var waiting := NextChunk(sent, stream, false);
      assert From(setup, e, sends) == waiting;
      WaitsThrough(setup, waiting, pumps);
      assert NextChunk(waiting, stream, true) == NextChunk(sent, stream, true);
    }
  }

  /** The pieces of a file response, one after the other. */
  ghost function FileEvents(sends: seq<seq<Event>>, pumps: seq<seq<Event>>): seq<Event>
    requires |sends| == |pumps|
  {
    if sends == [] then [] else sends[0] + pumps[0] + FileEvents(sends[1..], pumps[1..])
  }

  /** They send what is queued first and then each chunk. */
  ghost predicate SendsFile(first: nat, chunks: seq<Piece>, sends: seq<seq<Event>>, pumps: seq<seq<Event>>)
    decreases |chunks|
  {
    && |sends| == |pumps| == |chunks| + 1 && first > 0
    && Delivers(sends[0], first) && sends[0] != [] && HandsOver(sends[0], pumps[0])
    && (chunks != [] ==> SendsFile(|chunks[0]|, chunks[1..], sends[1..], pumps[1..]))
  }

  lemma {:induction false} FileThrough(setup: Setup, e: Exchange, sends: seq<seq<Event>>, pumps: seq<seq<Event>>)
    requires InOrder(e) && e.stage.Streaming?
    requires SendsFile(|e.out| - e.sent, e.stage.stream.chunks, sends, pumps)
    ensures var after := From(setup, e, FileEvents(sends, pumps));
            && after.stage == Closed(if e.stage.stream.fails then Dropped else Finished)
            && after.log.toClient == e.log.toClient + e.out[e.sent..] + Flatten(e.stage.stream.chunks)
    decreases |e.stage.stream.chunks|
  {
    var next := From(setup, e, sends[0] + pumps[0]);
    PieceThrough(setup, e, sends[0], pumps[0]);
    PieceTaken(e);
    FromThen(setup, e, sends[0] + pumps[0], FileEvents(sends[1..], pumps[1..]));
    if e.stage.stream.chunks == [] {
      assert sends[1..] == [] && From(setup, next, []) == next;
    } else {
      FileThrough(setup, next, sends[1..], pumps[1..]);
    }
  }

  lemma PieceTaken(e: Exchange)
    requires InOrder(e) && e.stage.Streaming?
    ensures var stream, all := e.stage.stream, e.log.toClient + e.out[e.sent..] + Flatten(e.stage.stream.chunks);
            var next := NextChunk(Advance(e, |e.out| - e.sent), stream, true);
            if stream.chunks == []
            then next.stage == Closed(if stream.fails then Dropped else Finished) && next.log.toClient == all
            else
              && InOrder(next) && next.stage == Streaming(Stream(stream.chunks[1..], stream.fails))
              && next.sent == 0 && next.out == stream.chunks[0]
              && next.log.toClient + next.out[next.sent..] + Flatten(stream.chunks[1..]) == all
  {
    var stream, before := e.stage.stream, e.log.toClient + e.out[e.sent..];
    assert e.out[e.sent..|e.out|] == e.out[e.sent..];
    if stream.chunks == [] {
      assert before + "" == before;
    } else {
      TwoParts(before, stream.chunks[0], Flatten(stream.chunks[1..]));
    }
  }

  lemma TwoParts(before: Bytes, chunk: Bytes, rest: Bytes)
    ensures before + chunk[0..] + rest == before + (chunk + rest)
  {
  }

  /** A file response is sent to its end: the head, then every chunk of the stream. */
  lemma WholeFile(
      setup: Setup, events: seq<Event>, received: Event, first: Piece, stream: Stream, sends: seq<seq<Event>>,
      pumps: seq<seq<Event>>)
    requires CompletesWith(setup, Run(setup, events), received, Serve(first, Some(stream)))
    requires SendsFile(|first|, stream.chunks, sends, pumps)
    ensures var after := Run(setup, events + [received] + FileEvents(sends, pumps));
            && after.stage == Closed(if stream.fails then Dropped else Finished)
            && after.log.toClient == first + Flatten(stream.chunks)
  {
    RunOne(setup, events, received);
    NothingYet(setup, events);
    ServesFile(setup, Run(setup, events), received, first, stream);
    RunThen(setup, events + [received], FileEvents(sends, pumps));
    FileFrom(setup, Run(setup, events + [received]), first, stream, sends, pumps);
  }

  lemma HeadFirst(first: Bytes, rest: Bytes)
    ensures "" + first[0..] + rest == first + rest
  {
  }

  lemma FileFrom(
      setup: Setup, e: Exchange, first: Piece, stream: Stream, sends: seq<seq<Event>>, pumps: seq<seq<Event>>)
    requires InOrder(e) && e.stage == Streaming(stream) && e.out == first && e.sent == 0 && e.log.toClient == ""
    requires SendsFile(|first|, stream.chunks, sends, pumps)
    ensures var after := From(setup, e, FileEvents(sends, pumps));
            && after.stage == Closed(if stream.fails then Dropped else Finished)
            && after.log.toClient == first + Flatten(stream.chunks)
  {
    FileThrough(setup, e, sends, pumps);
    HeadFirst(first, Flatten(stream.chunks));
  }

  /** Until the request is complete nothing has gone out. */
  lemma NothingYet(setup: Setup, events: seq<Event>)
    requires Run(setup, events).stage.Reading?
    ensures var e := Run(setup, events);
            InOrder(e) && e.log.toClient == "" && e.log.wire == [] && e.log.tried == [] && !e.timedOut
  {
  }

  /** The event completes the request, of which routing then says `plan`. */
  ghost predicate CompletesWith(setup: Setup, e: Exchange, received: Event, plan: Plan) {
    && e.stage.Reading? && PendingOk(e.stage.pending)
    && received.Received? && 0 < received.result == |received.data| && received.plan == plan
    && Ingest(setup.maxRead, e.stage.buffer, e.stage.pending, received.data).Ready?
  }

  lemma ServesFile(setup: Setup, e: Exchange, received: Event, first: Piece, stream: Stream)
    requires InOrder(e) && CompletesWith(setup, e, received, Serve(first, Some(stream)))
    ensures var after := Next(setup, e, received);
            && InOrder(after) && after.stage == Streaming(stream) && after.out == first && after.sent == 0
            && after.log.toClient == e.log.toClient
  {
    var intake := Ingest(setup.maxRead, e.stage.buffer, e.stage.pending, received.data);
    RequestMeets(setup, e, received, intake);
    FileBegins(setup, e, intake, received.plan);
  }

  lemma RequestMeets(setup: Setup, e: Exchange, received: Event, intake: Intake)
    requires InOrder(e) && received.Received? && CompletesWith(setup, e, received, received.plan)
    requires intake == Ingest(setup.maxRead, e.stage.buffer, e.stage.pending, received.data)
    ensures Next(setup, e, received) == OnIntake(setup, e, intake, received.plan)
  {
  }

  lemma FileBegins(setup: Setup, e: Exchange, intake: Intake, plan: Plan)
    requires intake.Ready? && plan.Serve? && plan.stream.Some? && InOrder(e) && !e.timedOut
    ensures var after := OnIntake(setup, e, intake, plan);
            && InOrder(after) && after.stage == Streaming(plan.stream.value) && after.out == plan.head
            && after.sent == 0 && after.log.toClient == e.log.toClient
  {
  }

  // ---------------------------------------------------------------- relaying a response

  /** The upstream's next bytes, after any interruptions. */
  ghost predicate Brings(arrivals: seq<Event>, chunk: Piece) {
    arrivals != [] &&
    if |arrivals| == 1 then arrivals == [Responded(|chunk|, chunk)]
    else arrivals[0].Responded? && arrivals[0].result in [-EAGAIN, -EINTR, -ENOBUFS] && Brings(arrivals[1..], chunk)
  }

  ghost function RelayEvents(arrivals: seq<seq<Event>>, sends: seq<seq<Event>>): seq<Event>
    requires |arrivals| == |sends|
  {
    if arrivals == [] then [] else arrivals[0] + sends[0] + RelayEvents(arrivals[1..], sends[1..])
  }

  /** Each chunk is read from the upstream and then sent to the client. */
  ghost predicate RelaysAll(maxWrite: nat, chunks: seq<Piece>, arrivals: seq<seq<Event>>, sends: seq<seq<Event>>) {
    && |arrivals| == |sends| == |chunks|
    && forall i | 0 <= i < |chunks| ::
         |chunks[i]| <= maxWrite && Brings(arrivals[i], chunks[i]) && Delivers(sends[i], |chunks[i]|)
  }

  ghost predicate Listens(e: Exchange) { e.stage.Responding? && !e.timedOut }

  lemma OneRead(setup: Setup, e: Exchange, event: Event)
    requires InOrder(e) && Listens(e) && event.Responded?
    ensures InOrder(Next(setup, e, event))
    ensures event.result in [-EAGAIN, -EINTR, -ENOBUFS] ==> Next(setup, e, event) == e
    ensures 0 < event.result == |event.data| <= setup.maxWrite ==> Next(setup, e, event) == Relay(e, event.data)
    ensures event.result == 0 ==> Next(setup, e, event) == Close(e, Finished)
  {
  }

  lemma {:induction false} ReadsThrough(setup: Setup, e: Exchange, arrivals: seq<Event>, chunk: Piece)
    requires InOrder(e) && Listens(e) && Brings(arrivals, chunk) && |chunk| <= setup.maxWrite
    ensures From(setup, e, arrivals) == Relay(e, chunk)
    decreases |arrivals|
  {
    var second := Next(setup, e, arrivals[0]);
    OneRead(setup, e, arrivals[0]);
    if |arrivals| > 1 {
      ReadsThrough(setup, e, arrivals[1..], chunk);
    } else {
      assert arrivals[1..] == [] && From(setup, second, []) == second;
    }
  }

  /** What a relayed chunk changes: the client has it, and the worker listens to the upstream again. */
  ghost predicate PassedOn(e: Exchange, after: Exchange, bytes: Bytes) {
    && InOrder(after) && Listens(after) && after.request == e.request && after.requestSent == e.requestSent
    && after.log.wire == e.log.wire && after.log.tried == e.log.tried
    && after.log.toClient == e.log.toClient + bytes
  }

  lemma ChunkThrough(setup: Setup, e: Exchange, chunk: Piece, arrivals: seq<Event>, sends: seq<Event>)
    requires InOrder(e) && Listens(e) && |chunk| <= setup.maxWrite
    requires Brings(arrivals, chunk) && Delivers(sends, |chunk|)
    ensures PassedOn(e, From(setup, e, arrivals + sends), chunk)
  {
    var relayed := Relay(e, chunk);
    FromThen(setup, e, arrivals, sends);
    ReadsThrough(setup, e, arrivals, chunk);
    SendsLead(setup, relayed, sends, |chunk|);
    RelayDrained(e, chunk, EndsReady(sends));
  }

  lemma RelayDrained(e: Exchange, chunk: Piece, ready: bool)
    requires InOrder(e) && Listens(e)
    ensures PassedOn(e, AfterDrain(Advance(Relay(e, chunk), |chunk|), ready), chunk)
  {
    assert Relay(e, chunk).out[0..|chunk|] == chunk;
  }

  lemma {:induction false} RelayThrough(
      setup: Setup, e: Exchange, chunks: seq<Piece>, arrivals: seq<seq<Event>>, sends: seq<seq<Event>>)
    requires InOrder(e) && Listens(e) && RelaysAll(setup.maxWrite, chunks, arrivals, sends)
    ensures PassedOn(e, From(setup, e, RelayEvents(arrivals, sends)), Flatten(chunks))
    decreases |chunks|
  {
    if chunks == [] {
      assert e.log.toClient + "" == e.log.toClient;
    } else {
      var next := From(setup, e, arrivals[0] + sends[0]);
      ChunkThrough(setup, e, chunks[0], arrivals[0], sends[0]);
      FromThen(setup, e, arrivals[0] + sends[0], RelayEvents(arrivals[1..], sends[1..]));
      assert RelaysAll(setup.maxWrite, chunks[1..], arrivals[1..], sends[1..]);
      RelayThrough(setup, next, chunks[1..], arrivals[1..], sends[1..]);
      assert e.log.toClient + chunks[0] + Flatten(chunks[1..]) == e.log.toClient + (chunks[0] + Flatten(chunks[1..]));
    }
  }

  /** A relay nothing interferes with goes on until the upstream ends it: the client has every byte of every chunk, in
      order, and the exchange finishes. */
  lemma WholeRelay(
      setup: Setup, events: seq<Event>, chunks: seq<Piece>, arrivals: seq<seq<Event>>, sends: seq<seq<Event>>)
    requires Listens(Run(setup, events)) && RelaysAll(setup.maxWrite, chunks, arrivals, sends)
    ensures var after := Run(setup, events + RelayEvents(arrivals, sends) + [Responded(0, "")]);
            && after.stage == Closed(Finished)
            && after.log.toClient == Run(setup, events).log.toClient + Flatten(chunks)
            && after.log.wire == Run(setup, events).log.wire && after.log.tried == Run(setup, events).log.tried
            && after.request == Run(setup, events).request
  {
    var e := Run(setup, events);
    RunThen(setup, events, RelayEvents(arrivals, sends));
    RelayThrough(setup, e, chunks, arrivals, sends);
    RunOne(setup, events + RelayEvents(arrivals, sends), Responded(0, ""));
    OneRead(setup, Run(setup, events + RelayEvents(arrivals, sends)), Responded(0, ""));
  }

  // ---------------------------------------------------------------- reaching the upstream

  /** Refused connections, each followed by sockets that cannot be created. */
  ghost predicate Refusals(attempts: seq<Event>) {
    forall i | 0 <= i < |attempts| :: attempts[i].Connected? && attempts[i].result < 0
  }

  /** How many addresses they use up. */
  ghost function UsedUp(attempts: seq<Event>): nat
    requires Refusals(attempts)
  {
    if attempts == [] then 0 else attempts[0].failures + 1 + UsedUp(attempts[1..])
  }

  /** Connecting, with nothing of the request sent. */
  ghost predicate Connects(e: Exchange) {
    && InOrder(e) && e.stage.Connecting? && !e.timedOut && e.request != "" && e.log.wire != []
    && forall i | 0 <= i < |e.log.wire| :: e.log.wire[i] == ""
  }

  /** What a refused connection changes: the next address is tried. */
  ghost predicate MovesOn(e: Exchange, after: Exchange, used: nat)
    requires e.stage.Connecting?
  {
    && Connects(after) && used <= |e.stage.rest| && after.stage.rest == e.stage.rest[used..]
    && after.request == e.request && after.log.toClient == e.log.toClient
    && after.log.tried == e.log.tried + e.stage.rest[..used]
  }

  lemma OneRefusal(setup: Setup, e: Exchange, event: Event)
    requires Connects(e) && event.Connected? && event.result < 0 && event.failures < |e.stage.rest|
    ensures MovesOn(e, Next(setup, e, event), event.failures + 1)
  {
  }

  lemma MovesOnTwice(e: Exchange, middle: Exchange, after: Exchange, a: nat, b: nat)
    requires Connects(e) && MovesOn(e, middle, a) && MovesOn(middle, after, b)
    ensures MovesOn(e, after, a + b)
  {
    var rest := e.stage.rest;
    assert rest[a..][b..] == rest[a + b..] && rest[..a] + rest[a..][..b] == rest[..a + b];
    assert e.log.tried + rest[..a] + rest[a..][..b] == e.log.tried + (rest[..a] + rest[a..][..b]);
  }

  lemma {:induction false} RefusalsThrough(setup: Setup, e: Exchange, attempts: seq<Event>)
    requires Connects(e) && Refusals(attempts) && UsedUp(attempts) <= |e.stage.rest|
    ensures MovesOn(e, From(setup, e, attempts), UsedUp(attempts))
    decreases |attempts|
  {
    if attempts == [] {
      assert e.log.tried + e.stage.rest[..0] == e.log.tried;
    } else {
      var second := Next(setup, e, attempts[0]);
      OneRefusal(setup, e, attempts[0]);
      RefusalsThrough(setup, second, attempts[1..]);
      MovesOnTwice(e, second, From(setup, second, attempts[1..]), attempts[0].failures + 1, UsedUp(attempts[1..]));
    }
  }

  /** Reports, piece by piece and with any interruptions, that `n` bytes have been accepted by the upstream. */
  ghost predicate Uploads(writes: seq<Event>, n: nat)
    decreases |writes|
  {
    if n == 0 then writes == []
    else
      writes != [] && writes[0].RequestSent?
      && if writes[0].result in [-EAGAIN, -EINTR] then Uploads(writes[1..], n)
         else 0 < writes[0].result <= n && Uploads(writes[1..], n - writes[0].result)
  }

  /** The request is on its way on the newest socket, the only one that has received anything. */
  ghost predicate Writes(e: Exchange) {
    && InOrder(e) && e.stage.Requesting? && !e.timedOut
    && OnlyLast(e.log.wire, e.request[..e.requestSent])
  }

  ghost predicate OnlyLast(wire: seq<Bytes>, bytes: Bytes) {
    wire != [] && wire[|wire| - 1] == bytes && forall i | 0 <= i < |wire| - 1 :: wire[i] == ""
  }

  /** The upstream has the whole request. */
  ghost predicate Requested(e: Exchange, after: Exchange) {
    && InOrder(after) && Listens(after) && after.request == e.request && OnlyLast(after.log.wire, e.request)
    && after.log.toClient == e.log.toClient && after.log.tried == e.log.tried
  }

  ghost predicate SameRequest(e: Exchange, after: Exchange) {
    after.request == e.request && after.log.toClient == e.log.toClient && after.log.tried == e.log.tried
  }

  lemma OneUpload(setup: Setup, e: Exchange, event: Event)
    requires Writes(e) && event.RequestSent?
    ensures var after := Next(setup, e, event);
            && (event.result in [-EAGAIN, -EINTR] ==> after == e)
            && (0 < event.result < |e.request| - e.requestSent ==>
                  Writes(after) && SameRequest(e, after) && after.requestSent == e.requestSent + event.result)
            && (0 < event.result == |e.request| - e.requestSent ==> Requested(e, after))
  {
    if 0 < event.result <= |e.request| - e.requestSent {
      var end := e.requestSent + event.result;
      assert e.request[..end] == e.request[..e.requestSent] + e.request[e.requestSent..end];
      assert end == |e.request| ==> e.request[..end] == e.request;
    }
  }

  lemma {:induction false} UploadsThrough(setup: Setup, e: Exchange, writes: seq<Event>)
    requires Writes(e) && Uploads(writes, |e.request| - e.requestSent)
    ensures Requested(e, From(setup, e, writes))
    decreases |writes|
  {
    var second := Next(setup, e, writes[0]);
    OneUpload(setup, e, writes[0]);
    if writes[0].result == |e.request| - e.requestSent {
      assert writes[1..] == [];
    } else {
      UploadsThrough(setup, second, writes[1..]);
    }
  }

  /** The upstream's addresses arrive, those that refuse are passed over, one accepts, and the request is sent. */
  ghost function UpstreamEvents(found: Event, attempts: seq<Event>, connected: Event, writes: seq<Event>): seq<Event> {
    [found] + attempts + [connected] + writes
  }

  ghost predicate Reaches(
      addresses: seq<Address>, request: Bytes, found: Event, attempts: seq<Event>, connected: Event,
      writes: seq<Event>)
  {
    && found.Resolved? && found.answer == Some(addresses)
    && Refusals(attempts) && found.failures + UsedUp(attempts) < |addresses|
    && connected.Connected? && connected.result >= 0
    && Uploads(writes, |request|)
  }

  /** A connection that waits for a name, with nothing sent. */
  ghost predicate Asks(e: Exchange) {
    && InOrder(e) && e.stage.Resolving? && !e.timedOut && e.request != "" && e.log.wire == [] && e.log.tried == []
  }

  lemma FirstAttempt(setup: Setup, e: Exchange, found: Event, addresses: seq<Address>)
    requires Asks(e) && found.Resolved? && found.answer == Some(addresses) && found.failures < |addresses|
    ensures var after := Next(setup, e, found);
            && Connects(after) && after.stage.rest == addresses[found.failures + 1..]
            && after.log.tried == addresses[..found.failures + 1] && after.request == e.request
            && after.log.toClient == e.log.toClient
  {
    assert [] + addresses[..found.failures + 1] == addresses[..found.failures + 1];
  }

  lemma Accepts(setup: Setup, e: Exchange, connected: Event)
    requires Connects(e) && connected.Connected? && connected.result >= 0
    ensures Writes(Next(setup, e, connected)) && SameRequest(e, Next(setup, e, connected))
    ensures Next(setup, e, connected).requestSent == 0
  {
  }

  /** Whichever addresses fail before one accepts, the request gets there, once and in order, and exactly the addresses
      up to that one have been used up. */
  lemma RequestThrough(
      setup: Setup, e: Exchange, addresses: seq<Address>, found: Event, attempts: seq<Event>, connected: Event,
      writes: seq<Event>)
    requires Asks(e) && Reaches(addresses, e.request, found, attempts, connected, writes)
    ensures var after := From(setup, e, UpstreamEvents(found, attempts, connected, writes));
            && InOrder(after) && Listens(after) && OnlyLast(after.log.wire, e.request) && after.request == e.request
            && after.log.tried == addresses[..found.failures + UsedUp(attempts) + 1]
            && after.log.toClient == e.log.toClient
  {
    var first := Next(setup, e, found);
    var last := From(setup, first, attempts);
    var open := Next(setup, last, connected);
    FirstAttempt(setup, e, found, addresses);
    RefusalsThrough(setup, first, attempts);
    Accepts(setup, last, connected);
    UploadsThrough(setup, open, writes);
    InOrderOf(setup, e, found, attempts, connected, writes);
    AddressesUsed(addresses, found.failures + 1, UsedUp(attempts));
  }

  lemma AddressesUsed(addresses: seq<Address>, a: nat, b: nat)
    requires a + b <= |addresses|
    ensures addresses[..a] + addresses[a..][..b] == addresses[..a + b]
  {
  }

  lemma InOrderOf(
      setup: Setup, e: Exchange, found: Event, attempts: seq<Event>, connected: Event, writes: seq<Event>)
    ensures From(setup, e, UpstreamEvents(found, attempts, connected, writes)) ==
            From(setup, Next(setup, From(setup, Next(setup, e, found), attempts), connected), writes)
  {
    FromThen(setup, e, [found] + attempts + [connected], writes);
    FromThen(setup, e, [found] + attempts, [connected]);
    FromThen(setup, e, [found], attempts);
    One(setup, e, found);
    One(setup, From(setup, Next(setup, e, found), attempts), connected);
  }

  lemma One(setup: Setup, e: Exchange, event: Event)
    ensures From(setup, e, [event]) == Next(setup, e, event)
  {
    assert [event][1..] == [];
  }

  // ---------------------------------------------------------------- all of it

  /** A proxied exchange from the read that completes its request. */
  lemma WholeProxy(
      setup: Setup, events: seq<Event>, received: Event, request: Piece, addresses: seq<Address>, found: Event,
      attempts: seq<Event>, connected: Event, writes: seq<Event>, chunks: seq<Piece>, arrivals: seq<seq<Event>>,
      sends: seq<seq<Event>>)
    requires Proxies(setup, Run(setup, events), received, request)
    requires Reaches(addresses, request, found, attempts, connected, writes)
    requires RelaysAll(setup.maxWrite, chunks, arrivals, sends)
    ensures var after := Run(setup, events + [received] + UpstreamEvents(found, attempts, connected, writes)
                                    + RelayEvents(arrivals, sends) + [Responded(0, "")]);
            && after.stage == Closed(Finished) && after.log.toClient == Flatten(chunks)
            && OnlyLast(after.log.wire, request)
              && after.log.tried == addresses[..found.failures + UsedUp(attempts) + 1]
  {
    var asked := events + [received];
    var sent := asked + UpstreamEvents(found, attempts, connected, writes);
    RunOne(setup, events, received);
    NothingYet(setup, events);
    AsksForName(setup, Run(setup, events), received, request);
    RunThen(setup, asked, UpstreamEvents(found, attempts, connected, writes));
    RequestThrough(setup, Run(setup, asked), addresses, found, attempts, connected, writes);
    WholeRelay(setup, sent, chunks, arrivals, sends);
    NothingBefore(Flatten(chunks));
  }

  lemma NothingBefore(s: Bytes)
    ensures "" + s == s
  {
  }

  /** The read completes a request that is routed to a usable upstream. */
  ghost predicate Proxies(setup: Setup, e: Exchange, received: Event, request: Piece) {
    && received.Received? && received.plan.Forward? && received.plan.resolverRuns
    && CompletesWith(setup, e, received, received.plan) && |request| <= setup.maxRead
    && var intake := Ingest(setup.maxRead, e.stage.buffer, e.stage.pending, received.data);
       setup.forward(received.plan.url, intake.head, intake.body) == Some(request)
  }

  lemma AsksForName(setup: Setup, e: Exchange, received: Event, request: Piece)
    requires InOrder(e) && Proxies(setup, e, received, request) && !e.timedOut && e.log.wire == [] && e.log.tried == []
    ensures var after := Next(setup, e, received);
            Asks(after) && after.request == request && after.log.toClient == e.log.toClient
  {
    var intake := Ingest(setup.maxRead, e.stage.buffer, e.stage.pending, received.data);
    RequestMeets(setup, e, received, intake);
    ForwardBegins(setup, e, intake, received.plan, request);
  }

  lemma ForwardBegins(setup: Setup, e: Exchange, intake: Intake, plan: Plan, request: Piece)
    requires InOrder(e) && e.stage.Reading? && !e.timedOut && e.log.wire == [] && e.log.tried == []
    requires intake.Ready? && plan.Forward? && plan.resolverRuns && |request| <= setup.maxRead
    requires setup.forward(plan.url, intake.head, intake.body) == Some(request)
    ensures var after := OnIntake(setup, e, intake, plan);
            Asks(after) && after.request == request && after.log.toClient == e.log.toClient
  {
  }
}
