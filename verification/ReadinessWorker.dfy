/** The readiness worker (readiness/worker.rs): edge-triggered events, bounded work per event, three queues of
    unfinished work, and draining. Every handler is proved to do to its connection exactly what Readiness.dfy says and
    nothing to any other; passes, events and whole turns of the loop are described connection by connection, and the
    invariant of ReadinessTable.dfy holds throughout. */
module ReadinessWorker {
  import opened Common
  import opened Http
  import opened Identifiers
  import opened Readiness
  import opened ReadinessTable
  import Exchange

  datatype Outcome = Running | Done | Failed

  // ---------------------------------------------------------------- bounded loops over one socket

  method TryWrites(offset: nat, length: nat, results: seq<WriteResult>) returns (reached: nat, end: WriteEnd)
    requires offset <= length
    ensures (reached, end) == Writes(offset, length, results, MAX_WRITES_PER_EVENT)
  {
    reached := offset;
    var rest := results;
    for i := 0 to MAX_WRITES_PER_EVENT
      invariant reached <= length
      invariant Writes(offset, length, results, MAX_WRITES_PER_EVENT) ==
                Writes(reached, length, rest, MAX_WRITES_PER_EVENT - i)
    {
      if reached == length {
        return reached, AllWritten;
      }
      if rest == [] || rest[0].WriteWouldBlock? {
        return reached, Blocked;
      }
      if rest[0].WriteFailed? || rest[0] == Written(0) {
        return reached, Broken;
      }
      if rest[0].Written? {
        reached := reached + Taken(rest[0].count, length - reached);
      }
      rest := rest[1..];
    }
    end := if reached == length then AllWritten else Spent;
  }

  method TryReads(setup: Setup, c: Connection, results: seq<ReadResult>) returns (end: ReadEnd)
    requires PendingOk(PendingOf(c.phase))
    ensures end == ReadsOf(setup, c, results)
  {
    var buffer, pending, reading, rest := c.readBuffer, PendingOf(c.phase), c.phase.Reading?, results;
    var dry := false;
    for i := 0 to MAX_READS_PER_EVENT
      invariant PendingOk(pending) && (!reading ==> pending == None)
      invariant ReadsOf(setup, c, results) ==
                ReadLoop(setup.maxRead, buffer, pending, reading, rest, MAX_READS_PER_EVENT - i, dry)
    {
      if rest == [] || rest[0].ReadWouldBlock? {
        return Waits(buffer, pending);
      }
      if rest[0].ReadFailed? || rest[0] == Data("") {
        return Closes;
      }
      if rest[0].Data? {
        var bytes := Clip(rest[0], READ_SIZE).bytes;
        var intake := ReceiveRequest(setup.maxRead, buffer, pending, bytes);
        LoopReads(setup.maxRead, buffer, pending, reading, rest, MAX_READS_PER_EVENT - i, dry);
        if intake.Rejected? {
          return Refuses(if |buffer + bytes| > setup.maxRead then buffer else buffer + bytes, intake.refusal);
        }
        if intake.Ready? && reading {
          return Completes(buffer + bytes, intake.head, intake.body);
        }
        pending := if intake.More? && reading then intake.pending else None;
        buffer := buffer + bytes;
        dry := |bytes| < READ_SIZE;
      }
      rest := rest[1..];
    }
    end := if dry then Waits(buffer, pending) else Stops(buffer, pending);
  }

  method TryDiscard(results: seq<ReadResult>) returns (closes: bool)
    ensures closes == HangsUp(results, MAX_READS_PER_EVENT)
  {
    var rest := results;
    for i := 0 to MAX_READS_PER_EVENT
      invariant HangsUp(results, MAX_READS_PER_EVENT) == HangsUp(rest, MAX_READS_PER_EVENT - i)
    {
      if rest == [] || rest[0].ReadWouldBlock? {
        return false;
      }
      if rest[0].ReadFailed? || rest[0] == Data("") {
        return true;
      }
      rest := rest[1..];
    }
    closes := false;
  }

  method TryRead(results: seq<ReadResult>) returns (result: ReadResult)
    ensures result == FirstRead(results)
  {
    var rest := results;
    while rest != [] && rest[0].ReadInterrupted?
      invariant FirstRead(results) == FirstRead(rest)
      decreases |rest|
    {
      rest := rest[1..];
    }
    result := if rest == [] then ReadWouldBlock else rest[0];
  }

  class ReadinessWorker {
    const setup: Setup
    const maxConnections: nat
    const listenerCount: nat
    var connections: map<nat, Connection>
    var generations: seq<nat>
    var pendingWrites: set<ConnectionId>
    var pendingUpstreamWrites: set<ConnectionId>
    var pendingUpstreamReads: set<ConnectionId>
    var draining: bool

    // What went through each connection and how it left; and the environment's side: how often each slot has been
    // occupied, the sockets that were ever registered, the names that were ever asked for.
    ghost var logs: map<nat, Log>
    ghost var departures: seq<Departure>
    var occupations: seq<nat>
    var sockets: set<Socket>
    var lookups: set<Ticket>

    ghost function T(): Table
      reads this
    {
      Table(setup, connections, logs, generations, occupations, pendingWrites, pendingUpstreamWrites,
        pendingUpstreamReads, draining, sockets, lookups, departures)
    }

    predicate IsCurrent(id: ConnectionId)
      reads this
    {
      id.slot in connections && connections[id.slot].generation == id.generation
    }

    /** The connection that an identifier names. */
    ghost predicate Names(id: ConnectionId)
      reads this
    {
      Live(T(), id)
    }

    ghost function E(id: ConnectionId): Entry
      requires Names(id)
      reads this
    {
      EntryAt(T(), id.slot)
    }

    constructor (setup: Setup, maxConnections: nat, listenerCount: nat)
      ensures this.setup == setup && this.maxConnections == maxConnections && this.listenerCount == listenerCount
      ensures T() == Table(setup, map[], map[], [], [], {}, {}, {}, false, {}, {}, []) && Good(T())
    {
      this.setup, this.maxConnections, this.listenerCount := setup, maxConnections, listenerCount;
      connections, logs, generations, occupations, draining := map[], map[], [], [], false;
      pendingWrites, pendingUpstreamWrites, pendingUpstreamReads := {}, {}, {};
      sockets, lookups, departures := {}, {}, [];
    }

    // -------------------------------------------------------------- ends and responses

    method RemoveConnection(id: ConnectionId, ghost cause: Cause)
      requires Names(id)
      modifies this
      ensures Turns(old(T()), T(), id.slot, Leaves(cause, old(E(id)).log))
    {
      pendingWrites := pendingWrites - {id};
      pendingUpstreamReads := pendingUpstreamReads - {id};
      pendingUpstreamWrites := pendingUpstreamWrites - {id};
      connections := connections - {id.slot};
      departures := departures + [Departure(id.slot, occupations[id.slot], cause, logs[id.slot])];
      logs := logs - {id.slot};
    }

    /** Store a connection's record and, as a ghost, its log. */
    method Store(id: ConnectionId, c: Connection, ghost log: Log)
      requires Names(id) && c.generation == id.generation
      requires Wires(connections[id.slot], c, T(), id, occupations[id.slot])
      modifies this
      ensures Turns(old(T()), T(), id.slot, Stays(old(E(id)).(conn := c, log := log)))
    {
      connections := connections[id.slot := c];
      logs := logs[id.slot := log];
    }

    method QueueResponse(id: ConnectionId, response: Bytes, registers: bool)
      requires Names(id)
      modifies this
      ensures Turns(old(T()), T(), id.slot, Respond(setup, old(E(id)), response, registers))
    {
      if !registers {
        RemoveConnection(id, Aborted);
        return;
      }
      var fitting := if |response| > setup.maxWrite then setup.render(Exchange.ResponseTooLarge) else response;
      var c := connections[id.slot].(phase := WritingResponse, writeBuffer := fitting, writeOffset := 0);
      ghost var log := logs[id.slot];
      log := log.(responses := log.responses + Opening(setup, response, c.staticStream));
      Store(id, c, log.(clientArmed := true, writesSpent := false));
    }

    /** The upstream half of a connection is dropped. */
    method DetachProxy(id: ConnectionId)
      requires Names(id)
      modifies this
      ensures var e := old(E(id));
              Turns(old(T()), T(), id.slot,
                Stays(e.(conn := e.conn.(phase := WritingResponse),
                         upstreamWriteQueued := false, upstreamReadQueued := false)))
    {
      Store(id, connections[id.slot].(phase := WritingResponse), logs[id.slot]);
      pendingUpstreamReads := pendingUpstreamReads - {id};
      pendingUpstreamWrites := pendingUpstreamWrites - {id};
    }

    method FailProxy(id: ConnectionId, notice: Notice, registers: bool)
      requires Names(id) && connections[id.slot].phase.Proxying?
      modifies this
      ensures Turns(old(T()), T(), id.slot, Fail(setup, old(E(id)), notice, registers))
    {
      ghost var before, next := T(), Fail(setup, E(id), notice, registers);
      var c := connections[id.slot];
      var canSendError := !c.phase.proxy.responseStarted && c.writeBuffer == "";
      DetachProxy(id);
      ghost var detached := T();
      if canSendError {
        QueueResponse(id, setup.render(notice), registers);
      } else {
        RemoveConnection(id, Aborted);
      }
      TurnsCompose(before, detached, T(), id.slot, EntryAt(detached, id.slot), next);
    }

    // -------------------------------------------------------------- the client is writable

    /** A registration that is refused here ends the worker. */
    method AdvanceStaticStream(id: ConnectionId, ready: bool, registers: bool) returns (ok: bool)
      requires Names(id) && connections[id.slot].staticStream.Some?
      modifies this
      ensures ok == !NextChunk(old(E(id)), ready, registers).Fails?
      ensures ok ==> Turns(old(T()), T(), id.slot, NextChunk(old(E(id)), ready, registers))
    {
      var c := connections[id.slot];
      var stream := c.staticStream.value;
      if ready && stream.chunks == [] {
        RemoveConnection(id, if stream.fails then Aborted else Delivered);
        return true;
      }
      ghost var log := logs[id.slot];
      if ready {
        var rest := Some(stream.(chunks := stream.chunks[1..]));
        c := c.(staticStream := rest, writeBuffer := stream.chunks[0], writeOffset := 0);
        log := log.(clientArmed := true, writesSpent := false);
      }
      Store(id, c, log);
      ok := registers;
    }

    method WriteReady(id: ConnectionId, k: Kernel) returns (ok: bool)
      requires Names(id) && connections[id.slot].writeOffset <= |connections[id.slot].writeBuffer|
      modifies this
      ensures ok == !OnWritable(old(E(id)), old(draining), k).Fails?
      ensures ok ==> Turns(old(T()), T(), id.slot, OnWritable(old(E(id)), old(draining), k))
    {
      ghost var before, next := T(), OnWritable(E(id), draining, k);
      var c := connections[id.slot];
      var offset, end := TryWrites(c.writeOffset, |c.writeBuffer|, k.clientWrites);
      ghost var sent := Sent(E(id), offset, end);
      Store(id, c.(writeOffset := offset), sent.log);
      ghost var stored := T();
      ok := ConcludeWrites(id, end, k);
      if ok {
        TurnsCompose(before, stored, T(), id.slot, sent, next);
      }
    }

    method ConcludeWrites(id: ConnectionId, end: WriteEnd, k: Kernel) returns (ok: bool)
      requires Names(id)
      modifies this
      ensures ok == !AfterWrites(old(E(id)), end, old(draining), k).Fails?
      ensures ok ==> Turns(old(T()), T(), id.slot, AfterWrites(old(E(id)), end, old(draining), k))
    {
      ok := true;
      match end {
        case Blocked => StaysPut(T(), id.slot);
        case Broken => RemoveConnection(id, Aborted);
        case AllWritten => ok := FinishWriting(id, k);
        case Spent =>
          StaysPut(T(), id.slot);
          if connections[id.slot].phase.WritingResponse? {
            pendingWrites := pendingWrites + {id};
          }
      }
    }

    /** Everything queued for the client has been written. */
    method FinishWriting(id: ConnectionId, k: Kernel) returns (ok: bool)
      requires Names(id)
      modifies this
      ensures ok == !OnDrained(old(E(id)), old(draining), k.ready, k.registersClient).Fails?
      ensures ok ==> Turns(old(T()), T(), id.slot, OnDrained(old(E(id)), old(draining), k.ready, k.registersClient))
    {
      var c := connections[id.slot];
      ok := true;
      if c.phase.WritingResponse? || c.phase.Proxying? {
        if c.staticStream.Some? {
          ok := AdvanceStaticStream(id, k.ready, k.registersClient);
        } else if c.phase.WritingResponse? {
          RemoveConnection(id, Delivered);
        } else if draining {
          RemoveConnection(id, CutShort);
        } else {
          ContinueRelay(id, k.registersClient);
        }
      } else if !k.registersClient {
        RemoveConnection(id, Aborted);
      } else {
        Store(id, c, logs[id.slot].(readArmed := true, readsSpent := false));
      }
    }

    /** The client is up to date with its upstream: read on. The identifier is queued even if the client is gone. */
    method ContinueRelay(id: ConnectionId, registers: bool)
      requires Names(id) && connections[id.slot].phase.Proxying?
      modifies this
      ensures var e := old(E(id));
              Turns(old(T()), T(), id.slot,
                if registers
                then Stays(e.(conn := e.conn.(writeBuffer := "", writeOffset := 0), upstreamReadQueued := true))
                else Leaves(Aborted, e.log))
    {
      if registers {
        Store(id, connections[id.slot].(writeBuffer := "", writeOffset := 0), logs[id.slot]);
      } else {
        RemoveConnection(id, Aborted);
      }
      pendingUpstreamReads := pendingUpstreamReads + {id};
    }

    // -------------------------------------------------------------- the client is readable

    method ConnectionReady(id: ConnectionId, k: Kernel)
      requires Names(id) && PendingOk(PendingOf(connections[id.slot].phase))
      modifies this
      ensures Turns(old(T()), T(), id.slot, OnReadable(setup, old(E(id)), k))
    {
      var c := connections[id.slot];
      if HandlesRequest(c.phase) {
        var closes := TryDiscard(k.clientReads);
        if closes {
          RemoveConnection(id, Aborted);
        } else {
          StaysPut(T(), id.slot);
        }
        return;
      }
      var end := TryReads(setup, c, k.clientReads);
      ConcludeReads(id, end, k.plan, k.registersClient);
    }

    method KeepRead(id: ConnectionId, buffer: Bytes, pending: Option<Pending>, ghost dry: bool)
      requires Names(id)
      modifies this
      ensures Turns(old(T()), T(), id.slot, Stays(HasRead(old(E(id)), buffer, pending, dry)))
    {
      var c := connections[id.slot];
      var phase := if c.phase.Reading? then Reading(pending) else c.phase;
      Store(id, c.(readBuffer := buffer, phase := phase), logs[id.slot].(readArmed := dry, readsSpent := !dry));
    }

    method ConcludeReads(id: ConnectionId, end: ReadEnd, plan: Routing, registers: bool)
      requires Names(id) && !HandlesRequest(connections[id.slot].phase)
      modifies this
      ensures Turns(old(T()), T(), id.slot, OnReads(setup, old(E(id)), end, plan, registers))
    {
      ghost var before, next := T(), OnReads(setup, E(id), end, plan, registers);
      var c := connections[id.slot];
      match end {
        case Waits(buffer, pending) => KeepRead(id, buffer, pending, true);
        case Stops(buffer, pending) => KeepRead(id, buffer, pending, false);
        case Refuses(buffer, refusal) =>
          Store(id, c.(readBuffer := buffer), logs[id.slot]);
          ghost var stored := T();
          QueueResponse(id, setup.render(Exchange.Refused(refusal)), registers);
          TurnsCompose(before, stored, T(), id.slot, EntryAt(stored, id.slot), next);
        case Completes(buffer, head, body) =>
          Store(id, c.(readBuffer := buffer, phase := Reading(None)), logs[id.slot]);
          ghost var stored := T();
          HandleRequest(id, head, body, plan, registers);
          TurnsCompose(before, stored, T(), id.slot, EntryAt(stored, id.slot), next);
        case Closes => RemoveConnection(id, Aborted);
      }
    }

    method HandleRequest(id: ConnectionId, head: RequestHead, body: Bytes, plan: Routing, registers: bool)
      requires Names(id)
      modifies this
      ensures Turns(old(T()), T(), id.slot, OnRequest(setup, old(E(id)), head, body, plan, registers))
    {
      match plan {
        case Respond(status, text) => QueueResponse(id, setup.render(Exchange.Configured(status, text)), registers);
        case Serve(first, stream) => QueueStaticResponse(id, first, stream, registers);
        case NoUpstream => QueueResponse(id, setup.render(Exchange.BadUpstream), registers);
        case Forward(url, resolverRuns) =>
          var request := setup.forward(url, head, body);
          if request == None || |request.value| > setup.maxRead || !resolverRuns {
            QueueResponse(id, setup.render(Exchange.ConnectionFailed), registers);
          } else {
            StartProxy(id, request.value);
          }
      }
    }

    method QueueStaticResponse(id: ConnectionId, first: Bytes, stream: Option<Stream>, registers: bool)
      requires Names(id)
      modifies this
      ensures var e := old(E(id));
              Turns(old(T()), T(), id.slot,
                Respond(setup, e.(conn := e.conn.(staticStream := stream)), first, registers))
    {
      ghost var before, e := T(), E(id);
      Store(id, connections[id.slot].(staticStream := stream), logs[id.slot]);
      ghost var stored := T();
      QueueResponse(id, first, registers);
      TurnsCompose(before, stored, T(), id.slot, EntryAt(stored, id.slot),
        Respond(setup, e.(conn := e.conn.(staticStream := stream)), first, registers));
    }

    method StartProxy(id: ConnectionId, request: Bytes)
      requires Names(id)
      modifies this
      ensures var e := old(E(id)); Turns(old(T()), T(), id.slot,
        Stays(e.(conn := e.conn.(phase := Resolving(request)))))
    {
      lookups := lookups + {Ticket(id, occupations[id.slot])};
      Store(id, connections[id.slot].(phase := Resolving(request)), logs[id.slot]);
    }

    // -------------------------------------------------------------- the upstream

    /** A name was resolved, or not. An identifier that cannot be made a token ends the worker. */
    method FinishResolution(id: ConnectionId, answer: Option<seq<nat>>, k: Kernel) returns (ok: bool)
      requires Names(id)
      modifies this
      ensures ok == !OnResolved(setup, old(E(id)), answer, Token(id, Upstream).Some?, k).Fails?
      ensures ok ==> Turns(old(T()), T(), id.slot, OnResolved(setup, old(E(id)), answer, Token(id, Upstream).Some?, k))
    {
      var c := connections[id.slot];
      ok := true;
      if !c.phase.Resolving? {
        StaysPut(T(), id.slot);
      } else if answer == None {
        QueueResponse(id, setup.render(Exchange.ResolutionFailed), k.registersClient);
      } else if answer.value == [] {
        QueueResponse(id, setup.render(Exchange.NoAddress), k.registersClient);
      } else if !k.upstreamConnected {
        QueueResponse(id, setup.render(Exchange.ConnectionFailed), k.registersClient);
      } else if Token(id, Upstream) == None {
        ok := false;
      } else if !k.registersUpstream {
        QueueResponse(id, setup.render(Exchange.ConnectionFailed), k.registersClient);
      } else {
        BeginProxy(id, ProxyState(c.phase.request, 0, false, Connecting));
      }
    }

    method BeginProxy(id: ConnectionId, proxy: ProxyState)
      requires Names(id) && Token(id, Upstream).Some?
      modifies this
      ensures var e := old(E(id));
              Turns(old(T()), T(), id.slot,
                Stays(e.(conn := e.conn.(phase := Proxying(proxy)), log := e.log.(upstreamArmed := true))))
    {
      sockets := sockets + {Socket(id, Upstream, occupations[id.slot])};
      Store(id, connections[id.slot].(phase := Proxying(proxy)), logs[id.slot].(upstreamArmed := true));
    }

    method WriteUpstreamRequest(id: ConnectionId, k: Kernel)
      requires Names(id) && RequestInRange(E(id))
      modifies this
      ensures Turns(old(T()), T(), id.slot, OnUpstreamWritable(setup, old(E(id)), k))
    {
      var c := connections[id.slot];
      if !c.phase.Proxying? || c.phase.proxy.phase.ReadingResponse? {
        StaysPut(T(), id.slot);
      } else if c.phase.proxy.phase.Connecting? && !k.upstreamConnected {
        FailProxy(id, Exchange.ConnectionFailed, k.registersClient);
      } else {
        ForwardRequest(id, k);
      }
    }

    method ForwardRequest(id: ConnectionId, k: Kernel)
      requires Names(id) && connections[id.slot].phase.Proxying? && RequestInRange(E(id))
      modifies this
      ensures var p := old(connections)[id.slot].phase.proxy;
              var r := Writes(p.requestOffset, |p.requestBuffer|, k.upstreamWrites, MAX_WRITES_PER_EVENT);
              Turns(old(T()), T(), id.slot, AfterForwarding(setup, Forwarded(old(E(id)), r.0, r.1.Blocked?), r.1, k))
    {
      ghost var before := T();
      var c := connections[id.slot];
      var p := c.phase.proxy;
      var offset, end := TryWrites(p.requestOffset, |p.requestBuffer|, k.upstreamWrites);
      ghost var sent := Forwarded(E(id), offset, end.Blocked?);
      Store(id, c.(phase := Proxying(p.(requestOffset := offset, phase := WritingRequest))), sent.log);
      ghost var stored := T();
      FinishForwarding(id, end, k);
      TurnsCompose(before, stored, T(), id.slot, sent, AfterForwarding(setup, sent, end, k));
    }

    method FinishForwarding(id: ConnectionId, end: WriteEnd, k: Kernel)
      requires Names(id) && connections[id.slot].phase.Proxying?
      modifies this
      ensures Turns(old(T()), T(), id.slot, AfterForwarding(setup, old(E(id)), end, k))
    {
      match end {
        case Blocked => StaysPut(T(), id.slot);
        case Broken => FailProxy(id, Exchange.ConnectionFailed, k.registersClient);
        case Spent =>
          StaysPut(T(), id.slot);
          pendingUpstreamWrites := pendingUpstreamWrites + {id};
        case AllWritten => AwaitResponse(id, k);
      }
    }

    /** The request is out: from now on the upstream's socket is watched for reading. */
    method AwaitResponse(id: ConnectionId, k: Kernel)
      requires Names(id) && connections[id.slot].phase.Proxying?
      modifies this
      ensures Turns(old(T()), T(), id.slot, AfterForwarding(setup, old(E(id)), AllWritten, k))
    {
      ghost var before, next := T(), AfterForwarding(setup, E(id), AllWritten, k);
      var c := connections[id.slot];
      c := c.(phase := Proxying(c.phase.proxy.(phase := ReadingResponse)));
      if k.registersUpstream {
        Store(id, c, logs[id.slot].(upstreamArmed := true));
      } else {
        Store(id, c, logs[id.slot]);
        ghost var stored := T();
        FailProxy(id, Exchange.ConnectionFailed, k.registersClient);
        TurnsCompose(before, stored, T(), id.slot, EntryAt(stored, id.slot), next);
      }
    }

    method ReadUpstreamResponse(id: ConnectionId, k: Kernel)
      requires Names(id)
      modifies this
      ensures Turns(old(T()), T(), id.slot, OnUpstreamReadable(setup, old(E(id)), k))
    {
      if !AwaitsUpstream(connections[id.slot]) {
        StaysPut(T(), id.slot);
        return;
      }
      var first := TryRead(k.upstreamReads);
      ConcludeUpstreamRead(id, Clip(first, Taken(READ_SIZE, setup.maxWrite)), k.registersClient);
    }

    method ConcludeUpstreamRead(id: ConnectionId, result: ReadResult, registers: bool)
      requires Names(id) && AwaitsUpstream(connections[id.slot])
      modifies this
      ensures Turns(old(T()), T(), id.slot, AfterRead(setup, old(E(id)), result, registers))
    {
      if result == Data("") {
        RemoveConnection(id, UpstreamEnded);
      } else if result.Data? {
        Relay(id, result.bytes, registers);
      } else if result.ReadFailed? {
        FailProxy(id, Exchange.ResponseFailed, registers);
      } else {
        Store(id, connections[id.slot], logs[id.slot].(upstreamArmed := true));
      }
    }

    method Relay(id: ConnectionId, bytes: Bytes, registers: bool)
      requires Names(id) && AwaitsUpstream(connections[id.slot])
      modifies this
      ensures var relayed := Relayed(old(E(id)), bytes);
              Turns(old(T()), T(), id.slot, if registers then Stays(relayed) else Leaves(Aborted, relayed.log))
    {
      ghost var before, relayed := T(), Relayed(E(id), bytes);
      var c := connections[id.slot];
      var p := c.phase.proxy.(responseStarted := true);
      assert c.writeBuffer + bytes == bytes;
      Store(id, c.(writeBuffer := c.writeBuffer + bytes, writeOffset := 0, phase := Proxying(p)), relayed.log);
      if !registers {
        ghost var stored := T();
        RemoveConnection(id, Aborted);
        TurnsCompose(before, stored, T(), id.slot, relayed, Leaves(Aborted, relayed.log));
      }
    }

    // -------------------------------------------------------------- serving the queues and the chores
    //
    // Serving a queue takes the identifier out first: the source empties the whole queue before it serves it, but only
    // the service of a connection touches its own place.

    method Dequeue(queue: Queue, id: ConnectionId)
      modifies this
      ensures T() == TakenFrom(old(T()), queue, id)
    {
      match queue {
        case ClientWrites => pendingWrites := pendingWrites - {id};
        case UpstreamWrites => pendingUpstreamWrites := pendingUpstreamWrites - {id};
        case UpstreamReads => pendingUpstreamReads := pendingUpstreamReads - {id};
      }
    }

    method Work(queue: Queue, id: ConnectionId, k: Kernel) returns (ok: bool)
      requires Names(id) && WriteInRange(E(id)) && RequestInRange(E(id))
      modifies this
      ensures ok == !OnQueued(setup, old(E(id)), queue, old(draining), k).Fails?
      ensures ok ==> Turns(old(T()), T(), id.slot, OnQueued(setup, old(E(id)), queue, old(draining), k))
    {
      ok := true;
      match queue {
        case ClientWrites => ok := WriteReady(id, k);
        case UpstreamWrites => WriteUpstreamRequest(id, k);
        case UpstreamReads => ReadUpstreamResponse(id, k);
      }
    }

    /** One identifier from a queue: its connection is worked on, or there is none and nothing happens. */
    method ServeQueued(queue: Queue, id: ConnectionId, k: Kernel) returns (ok: bool)
      requires Good(T())
      modifies this
      ensures !old(Names(id)) ==> ok && T() == TakenFrom(old(T()), queue, id)
      ensures old(Names(id)) ==>
                var next := OnQueued(setup, Dequeued(old(E(id)), queue), queue, old(draining), k);
                ok == !next.Fails? && (ok ==> Turns(old(T()), T(), id.slot, next))
      ensures ok ==> Good(T()) && Progress(old(T()), T())
    {
      ghost var before := T();
      Dequeue(queue, id);
      ghost var taken := T();
      if !IsCurrent(id) {
        StaleTaken(before, queue, id);
        return true;
      }
      TakenInRange(before, queue, id);
      ghost var next := OnQueued(setup, E(id), queue, draining, k);
      ok := Work(queue, id, k);
      if ok {
        ServedTurns(before, queue, id, T(), next, k);
      }
    }

    method DoChore(id: ConnectionId, chore: Chore, k: Kernel) returns (ok: bool)
      requires Names(id)
      modifies this
      ensures ok == !OnChore(setup, old(E(id)), chore, k).Fails?
      ensures ok ==> Turns(old(T()), T(), id.slot, OnChore(setup, old(E(id)), chore, k))
    {
      var c := connections[id.slot];
      ok := true;
      if chore.ExpireResolution? && c.phase.Resolving? {
        QueueResponse(id, setup.render(Exchange.TimedOut(Exchange.ResolvingPhase)), k.registersClient);
      } else if chore.ExpireProxy? && c.phase.Proxying? {
        FailProxy(id, Exchange.TimedOut(Waiting(c.phase.proxy.phase)), k.registersClient);
      } else if chore.CloseIdle? && !HandlesRequest(c.phase) {
        RemoveConnection(id, Aborted);
      } else if chore.PumpStream? && c.staticStream.Some? && c.Drained() {
        ok := AdvanceStaticStream(id, k.ready, k.registersClient);
      } else {
        StaysPut(T(), id.slot);
      }
    }

    /** What a pass does for one identifier. */
    method Visit(job: Job, id: ConnectionId, k: Kernel) returns (ok: bool)
      requires Good(T()) && (job.Chores? ==> id.slot in job.due)
      modifies this
      ensures !old(Names(id)) ==> ok
      ensures !old(Names(id)) ==> T() == if job.Serve? then TakenFrom(old(T()), job.queue, id) else old(T())
      ensures old(Names(id)) ==> ok == !VisitNext(job, setup, old(E(id)), old(draining), k).Fails?
      ensures old(Names(id)) && ok ==>
        Turns(old(T()), T(), id.slot, VisitNext(job, setup, old(E(id)), old(draining), k))
      ensures ok ==> Good(T()) && Progress(old(T()), T())
    {
      if job.Serve? {
        ok := ServeQueued(job.queue, id, k);
      } else if IsCurrent(id) {
        ghost var before, next := T(), OnChore(setup, EntryAt(T(), id.slot), job.chore, k);
        assert EntryOk(before, id.slot);
        OnChoreKeeps(setup, EntryAt(before, id.slot), job.chore, k, draining);
        ok := DoChore(id, job.chore, k);
        if ok {
          TurnKeeps(before, T(), id.slot, next);
        }
      } else {
        ProgressReflexive(T());
        ok := true;
      }
    }

    /** The next identifier of a pass. */
    method PassOne(ghost start: Table, job: Job, id: ConnectionId, ghost left: set<ConnectionId>,
                   kernel: ConnectionId -> Kernel)
      returns (ok: bool)
      requires Good(start) && Good(T()) && Passing(start, T(), job, kernel, left)
      requires id in left && Targeted(start, job, id)
      modifies this
      ensures ok ==> Good(T()) && Progress(old(T()), T()) && Passing(start, T(), job, kernel, left - {id})
      ensures !ok ==> Present(start, id.slot) && NextFor(job, start, id.slot, kernel).Fails?
    {
      ghost var before := T();
      NotYetPassed(start, before, job, kernel, left, id);
      ok := Visit(job, id, kernel(id));
      if Live(start, id) {
        assert EntryOk(start, id.slot);
        if ok {
          PassGoesOn(start, before, T(), job, kernel, left, id);
        }
      } else {
        PassSkips(start, before, T(), job, kernel, left, id);
      }
    }

    /** A whole pass: every connection that it is for takes exactly its step, and no other changes. It fails only where
        one of those steps does. */
    method Pass(job: Job, kernel: ConnectionId -> Kernel) returns (ok: bool)
      requires Good(T())
      modifies this
      ensures ok ==> Good(T()) && Progress(old(T()), T()) && Passing(old(T()), T(), job, kernel, {})
      ensures !ok ==> exists slot :: Present(old(T()), slot) && NextFor(job, old(T()), slot, kernel).Fails?
    {
      ghost var start := T();
      ProgressReflexive(start);
      var targets := Targets(job);
      PassBegins(start, job, kernel, targets);
      var left := targets;
      while left != {}
        invariant Good(T()) && Progress(start, T()) && Passing(start, T(), job, kernel, left)
        invariant left <= targets
      {
        var id :| id in left;
        ghost var before := T();
        ok := PassOne(start, job, id, left, kernel);
        if !ok {
          return;
        }
        ProgressTransitive(start, before, T());
        left := left - {id};
      }
      ok := true;
    }

    /** The identifiers that a pass visits. */
    method Targets(job: Job) returns (ids: set<ConnectionId>)
      requires Good(T())
      ensures Covers(T(), job, ids)
    {
      match job {
        case Serve(queue) =>
          ids := match queue
                 case ClientWrites => pendingWrites
                 case UpstreamWrites => pendingUpstreamWrites
                 case UpstreamReads => pendingUpstreamReads;
        case Chores(_, due) =>
          ids := set slot | slot in connections && slot in due :: ConnectionId(slot, connections[slot].generation);
      }
    }

    // -------------------------------------------------------------- events

    method ClientWriteStep(id: ConnectionId, event: ReadyEvent, k: Kernel) returns (ok: bool)
      requires Good(T()) && Names(id)
      modifies this
      ensures ok == !ClientWrite(old(E(id)), old(draining), event, k).Fails?
      ensures ok ==> Turns(old(T()), T(), id.slot, ClientWrite(old(E(id)), old(draining), event, k)) && Good(T())
    {
      ghost var before, next := T(), ClientWrite(E(id), draining, event, k);
      assert EntryOk(before, id.slot);
      ClientPartsKeep(setup, E(id), draining, event, k);
      ok := true;
      if event.writable {
        ok := WriteReady(id, k);
      } else {
        StaysPut(before, id.slot);
      }
      if ok {
        TurnKeeps(before, T(), id.slot, next);
      }
    }

    method ClientReadStep(id: ConnectionId, event: ReadyEvent, k: Kernel)
      requires Good(T()) && Names(id)
      modifies this
      ensures Turns(old(T()), T(), id.slot, ClientRead(setup, old(E(id)), old(draining), event, k)) && Good(T())
    {
      ghost var before, next := T(), ClientRead(setup, E(id), draining, event, k);
      assert EntryOk(before, id.slot);
      ClientPartsKeep(setup, E(id), draining, event, k);
      if event.readable && !draining {
        ConnectionReady(id, k);
      } else {
        StaysPut(before, id.slot);
      }
      TurnKeeps(before, T(), id.slot, next);
    }

    method ClientCloseStep(id: ConnectionId, event: ReadyEvent)
      requires Names(id)
      modifies this
      ensures Turns(old(T()), T(), id.slot, ClientClose(old(E(id)), event))
    {
      if event.Closed() && connections[id.slot].Drained() {
        RemoveConnection(id, Aborted);
      } else {
        StaysPut(T(), id.slot);
      }
    }

    /** An event of a client's socket: write, then read, then see whether it is closed. */
    method DispatchClient(id: ConnectionId, event: ReadyEvent, k: Kernel, later: Kernel) returns (ok: bool)
      requires Good(T()) && Names(id)
      modifies this
      ensures ok == !OnClientEvent(setup, old(E(id)), old(draining), event, k, later).Fails?
      ensures ok ==> Turns(old(T()), T(), id.slot, OnClientEvent(setup, old(E(id)), old(draining), event, k, later))
    {
      if event.error {
        RemoveConnection(id, Aborted);
        return true;
      }
      ghost var before, e, drains := T(), E(id), draining;
      assert EntryOk(before, id.slot);
      ClientPartsKeep(setup, e, drains, event, k);
      ghost var written := ClientWrite(e, drains, event, k);
      ok := ClientWriteStep(id, event, k);
      if !ok || !IsCurrent(id) {
        return;
      }
      ghost var afterWrite, w := T(), written.entry;
      ghost var read := ClientRead(setup, w, drains, event, later);
      ClientPartsKeep(setup, w, drains, event, later);
      ClientReadStep(id, event, later);
      TurnsCompose(before, afterWrite, T(), id.slot, w, read);
      if !IsCurrent(id) {
        return;
      }
      ghost var afterRead, r := T(), read.entry;
      ClientCloseStep(id, event);
      TurnsCompose(before, afterRead, T(), id.slot, r, ClientClose(r, event));
    }

    method UpstreamWriteStep(id: ConnectionId, event: ReadyEvent, k: Kernel)
      requires Good(T()) && Names(id)
      modifies this
      ensures Turns(old(T()), T(), id.slot, UpstreamWrite(setup, old(E(id)), event, k)) && Good(T())
    {
      ghost var before, next := T(), UpstreamWrite(setup, E(id), event, k);
      assert EntryOk(before, id.slot);
      UpstreamPartsKeep(setup, E(id), event, k, draining);
      if event.writable {
        WriteUpstreamRequest(id, k);
      } else {
        StaysPut(before, id.slot);
      }
      TurnKeeps(before, T(), id.slot, next);
    }

    method UpstreamReadStep(id: ConnectionId, event: ReadyEvent, k: Kernel)
      requires Good(T()) && Names(id)
      modifies this
      ensures Turns(old(T()), T(), id.slot, UpstreamRead(setup, old(E(id)), event, k)) && Good(T())
    {
      ghost var before, next := T(), UpstreamRead(setup, E(id), event, k);
      assert EntryOk(before, id.slot);
      UpstreamPartsKeep(setup, E(id), event, k, draining);
      if event.readable {
        ReadUpstreamResponse(id, k);
      } else {
        StaysPut(before, id.slot);
      }
      TurnKeeps(before, T(), id.slot, next);
    }

    method UpstreamCloseStep(id: ConnectionId, event: ReadyEvent)
      requires Names(id)
      modifies this
      ensures Turns(old(T()), T(), id.slot, UpstreamClose(old(E(id)), event))
    {
      StaysPut(T(), id.slot);
      if event.Closed() {
        pendingUpstreamReads := pendingUpstreamReads + {id};
      }
    }

    /** An event of an upstream's socket, if the connection still has an upstream. */
    method DispatchUpstream(id: ConnectionId, event: ReadyEvent, k: Kernel, later: Kernel)
      requires Good(T()) && Names(id)
      modifies this
      ensures Turns(old(T()), T(), id.slot, OnUpstreamEvent(setup, old(E(id)), event, k, later))
    {
      ghost var before, e, drains := T(), E(id), draining;
      if !connections[id.slot].phase.Proxying? {
        StaysPut(before, id.slot);
        return;
      }
      if event.error {
        FailProxy(id, Exchange.ConnectionFailed, k.registersClient);
        return;
      }
      assert EntryOk(before, id.slot);
      UpstreamPartsKeep(setup, e, event, k, drains);
      ghost var written := UpstreamWrite(setup, e, event, k);
      UpstreamWriteStep(id, event, k);
      if !IsCurrent(id) {
        return;
      }
      ghost var afterWrite, w := T(), written.entry;
      ghost var read := UpstreamRead(setup, w, event, later);
      UpstreamPartsKeep(setup, w, event, later, drains);
      UpstreamReadStep(id, event, later);
      TurnsCompose(before, afterWrite, T(), id.slot, w, read);
      if !IsCurrent(id) {
        return;
      }
      ghost var afterRead, r := T(), read.entry;
      UpstreamCloseStep(id, event);
      TurnsCompose(before, afterRead, T(), id.slot, r, UpstreamClose(r, event));
    }

    method ProcessDnsResult(answer: Answer, kernel: ConnectionId -> Kernel) returns (ok: bool)
      requires Good(T())
      modifies this
      ensures ok ==> AnswerDone(old(T()), T(), answer, kernel) && Good(T()) && Progress(old(T()), T())
      ensures Token(answer.id, Upstream).Some? ==> ok
    {
      ghost var before := T();
      ok := true;
      if Ticket(answer.id, answer.occupation) in lookups && IsCurrent(answer.id) {
        assert EntryOk(before, answer.id.slot);
        if Token(answer.id, Upstream).Some? {
          AnswerDoesNotFail(before, answer, kernel);
        }
        ok := FinishResolution(answer.id, answer.addresses, kernel(answer.id));
      }
      if ok {
        AnswerKeeps(before, T(), answer, kernel);
      }
    }

    /** The resolver's answers, one after the other; those to lookups that were never made do not occur. */
    method ProcessDnsResults(answers: seq<Answer>, kernel: ConnectionId -> Kernel) returns (ok: bool)
      requires Good(T())
      modifies this
      ensures ok ==> AnswersDone(old(T()), T(), answers, kernel) && Good(T()) && Progress(old(T()), T())
      ensures Identified(answers) ==> ok
    {
      ghost var start := T();
      ProgressReflexive(start);
      for i := 0 to |answers|
        invariant AnswersDone(start, T(), answers[..i], kernel) && Good(T()) && Progress(start, T())
      {
        ghost var before := T();
        ok := ProcessDnsResult(answers[i], kernel);
        if !ok {
          return;
        }
        ProgressTransitive(start, before, T());
        OneMoreAnswer(start, before, T(), answers[..i], answers[i], kernel);
        Grow(answers, i);
      }
      AllOf(answers);
      ok := true;
    }

    /** An event of a registered socket, for the connection that its token names. */
    method DispatchSocket(id: ConnectionId, role: SocketRole, event: ReadyEvent, k: Kernel, later: Kernel)
      returns (ok: bool)
      requires Good(T())
      modifies this
      ensures ok ==>
                SocketEventDone(old(T()), T(), id, role, event, k, later) && Good(T()) && Progress(old(T()), T())
      ensures k.registersClient ==> ok
    {
      ghost var before := T();
      ok := true;
      if Socket(id, role, event.occupation) in sockets && IsCurrent(id) {
        assert EntryOk(before, id.slot);
        if role == Client {
          if k.registersClient {
            ClientEventDoesNotFail(setup, EntryAt(before, id.slot), draining, event, k, later);
          }
          ok := DispatchClient(id, event, k, later);
        } else {
          DispatchUpstream(id, event, k, later);
        }
      }
      if ok {
        EventKeeps(before, T(), id, role, event, k, later);
      }
    }

    ghost function L(): Limits { Limits(listenerCount, maxConnections) }

    /** Events of the control token and of listeners are not about a connection; the others reach the connection whose
        identifier their token carries, if it is the current one of its slot. */
    method Dispatch(event: ReadyEvent, index: nat, turn: Turn) returns (ok: bool)
      requires Good(T())
      modifies this
      ensures ok ==> EventDone(old(T()), T(), event, index, turn, L()) && Good(T()) && Progress(old(T()), T())
      ensures Untroubled(turn) ==> ok
    {
      var at, later := Handling(index), HandlingMore(index);
      if event.token == CONTROL_TOKEN {
        ok := ProcessDnsResults(turn.answers(at), turn.kernel(at));
        return;
      }
      if event.token < listenerCount {
        ok := true;
        ProgressReflexive(T());
        if event.readable && !draining {
          AcceptReady(event.token, turn.accepted(index));
        }
        return;
      }
      var named := FromToken(event.token);
      if named == None {
        ProgressReflexive(T());
        return true;
      }
      var (id, role) := named.value;
      ok := DispatchSocket(id, role, event, turn.kernel(at)(id), turn.kernel(later)(id));
    }

    method DispatchAll(turn: Turn) returns (ok: bool)
      requires Good(T())
      modifies this
      ensures ok ==> EventsDone(old(T()), T(), turn.events, turn, L()) && Good(T()) && Progress(old(T()), T())
      ensures Untroubled(turn) ==> ok
    {
      ghost var start := T();
      ProgressReflexive(start);
      for i := 0 to |turn.events|
        invariant EventsDone(start, T(), turn.events[..i], turn, L()) && Good(T()) && Progress(start, T())
      {
        ghost var before := T();
        ok := Dispatch(turn.events[i], i, turn);
        if !ok {
          return;
        }
        ProgressTransitive(start, before, T());
        OneMoreEvent(start, before, T(), turn.events[..i], turn.events[i], turn, L());
        Grow(turn.events, i);
      }
      AllOf(turn.events);
      ok := true;
    }

    // -------------------------------------------------------------- new connections

    method AcceptReady(listener: nat, accepted: seq<Accepted>)
      requires Good(T()) && !draining
      modifies this
      ensures AcceptsDone(old(T()), T(), listener, accepted, maxConnections) && Good(T()) && Progress(old(T()), T())
    {
      ghost var start := T();
      ProgressReflexive(start);
      for i := 0 to |accepted|
        invariant AcceptsDone(start, T(), listener, accepted[..i], maxConnections)
        invariant Good(T()) && Progress(start, T()) && !draining
      {
        ghost var before := T();
        AcceptOne(listener, accepted[i]);
        ProgressTransitive(start, before, T());
        OneMoreAccepted(start, before, T(), listener, accepted[..i], accepted[i], maxConnections);
        Grow(accepted, i);
      }
      AllOf(accepted);
    }

    method AcceptOne(listener: nat, accepted: Accepted)
      requires Good(T()) && !draining
      modifies this
      ensures AcceptDone(old(T()), T(), listener, accepted, maxConnections)
      ensures Good(T()) && Progress(old(T()), T()) && !draining
    {
      ghost var before := T();
      if |connections| < maxConnections {
        RegisterConnection(listener, accepted);
      }
      AcceptKeeps(before, T(), listener, accepted, maxConnections);
    }

    method RegisterConnection(listener: nat, accepted: Accepted)
      requires Good(T()) && |connections| < maxConnections
      modifies this
      ensures AcceptDone(old(T()), T(), listener, accepted, maxConnections)
    {
      var choice := accepted.choice;
      var slot := if choice in connections || choice > |generations| then |generations| else choice;
      if slot > SLOT_MASK {
        return;
      }
      ghost var before := T();
      InRange(before);
      InsertConnection(slot, listener);
      ghost var arrived := T();
      if !accepted.registers {
        TurnAway(slot);
      }
      AcceptIsDone(before, arrived, T(), listener, accepted, maxConnections, slot);
    }

    /** A socket that cannot be registered is not kept. */
    method TurnAway(slot: nat)
      requires Present(T(), slot) && logs[slot] == EMPTY_LOG
      modifies this
      ensures TurnedAway(old(T()), T(), slot)
    {
      ghost var before := T();
      RemoveConnection(ConnectionId(slot, connections[slot].generation), Aborted);
      assert Turns(before, T(), slot, Leaves(Aborted, EMPTY_LOG));
    }

    method InsertConnection(slot: nat, listener: nat)
      requires slot <= |generations| == |occupations|
      modifies this
      ensures T() == Arrival(old(T()), slot, listener)
    {
      if |generations| <= slot {
        generations := generations + [0];
        occupations := occupations + [0];
      }
      var generation := NextGeneration(TOKEN_MODULUS, generations[slot]);
      generations := generations[slot := generation];
      occupations := occupations[slot := occupations[slot] + 1];
      connections := connections[slot := NewConnection(generation, listener)];
      logs := logs[slot := EMPTY_LOG];
      sockets := sockets + {Socket(ConnectionId(slot, generation), Client, occupations[slot])};
    }

    // -------------------------------------------------------------- shutdown

    /** A connection with nothing to send is not kept. */
    method Shed(slot: nat, ghost start: Table)
      requires Good(start) && Good(Undrained(T())) && draining && Shedding(start, T(), slot)
      modifies this
      ensures Good(Undrained(T())) && Progress(Undrained(old(T())), Undrained(T()))
      ensures draining && generations == old(generations) && Shedding(start, T(), slot + 1)
    {
      ghost var before := T();
      ProgressReflexive(Undrained(before));
      if slot in start.connections {
        assert ShedAt(start, before, slot, slot) && EntryOk(start, slot);
      }
      if slot in connections && connections[slot].staticStream.None? && connections[slot].Drained() {
        assert EntryOk(Undrained(before), slot);
        RemoveConnection(ConnectionId(slot, connections[slot].generation), Aborted);
        UndrainedTurns(before, T(), slot, before.logs[slot]);
      }
      ShedOne(start, before, T(), slot);
    }

    method BeginShutdown()
      requires Good(T()) && !draining
      modifies this
      ensures Good(T()) && Progress(old(T()), T()) && Begun(old(T()), T(), true)
    {
      ghost var start := T();
      ProgressReflexive(start);
      SheddingBegins(start);
      draining := true;
      assert Undrained(T()) == start && T() == start.(draining := true);
      for slot := 0 to |generations|
        invariant draining && generations == start.generations && Shedding(start, T(), slot)
        invariant Good(Undrained(T())) && Progress(start, Undrained(T()))
      {
        ghost var before := T();
        Shed(slot, start);
        ProgressTransitive(start, Undrained(before), Undrained(T()));
      }
      DrainingBegins(start, T());
    }

    method CloseSlot(slot: nat)
      requires Good(T())
      modifies this
      ensures Good(T()) && Progress(old(T()), T())
      ensures connections == old(connections) - {slot} && generations == old(generations) && draining == old(draining)
    {
      ghost var before := T();
      ProgressReflexive(before);
      if slot in connections {
        assert EntryOk(before, slot);
        ConservedEnds(setup, EntryAt(before, slot));
        RemoveConnection(ConnectionId(slot, connections[slot].generation), Aborted);
        TurnKeeps(before, T(), slot, Leaves(Aborted, EntryAt(before, slot).log));
      }
    }

    method CloseAllConnections()
      requires Good(T())
      modifies this
      ensures Good(T()) && Progress(old(T()), T()) && connections == map[] && draining == old(draining)
    {
      ghost var start := T();
      ProgressReflexive(start);
      for slot := 0 to |generations|
        invariant Good(T()) && Progress(start, T()) && generations == start.generations && draining == start.draining
        invariant ClosedBelow(T(), slot)
      {
        ghost var before := T();
        CloseSlot(slot);
        ProgressTransitive(start, before, T());
        ClosedOneMore(before, T(), slot);
      }
      NoneLeft(T());
    }

    // -------------------------------------------------------------- the loop

    /** One pass over the connections for which it is time. */
    method RunChore(chore: Chore, turn: Turn) returns (ok: bool)
      requires Good(T())
      modifies this
      ensures ok ==> Good(T()) && Progress(old(T()), T()) && ChoreDone(old(T()), T(), chore, turn)
      ensures Untroubled(turn) ==> ok
    {
      ok := Pass(Chores(chore, turn.due(chore)), turn.kernel(Doing(chore)));
      if !ok {
        NextFails(old(T()), Chores(chore, turn.due(chore)), turn, Doing(chore));
      }
    }

    /** One pass over a queue; what is queued meanwhile waits for the next turn. */
    method RunQueue(queue: Queue, turn: Turn) returns (ok: bool)
      requires Good(T())
      modifies this
      ensures ok ==> Good(T()) && Progress(old(T()), T()) && QueueDone(old(T()), T(), queue, turn)
      ensures Untroubled(turn) ==> ok
    {
      ok := Pass(Serve(queue), turn.kernel(Serving(queue)));
      if !ok {
        NextFails(old(T()), Serve(queue), turn, Serving(queue));
      }
    }

    method DoChores(turn: Turn, ghost begun: Table, ghost answered: Table) returns (ok: bool, ghost s: Stages)
      requires Good(T()) && T() == answered
      modifies this
      ensures s.begun == begun && s.answered == answered && s.wrote == s.wroteUpstream == s.readUpstream == s.pumped
      ensures ok ==> Good(T()) && Progress(answered, T()) && T() == s.pumped
      ensures ok ==>
                && ChoreDone(s.answered, s.expiredLookups, ExpireResolution, turn)
                && ChoreDone(s.expiredLookups, s.expiredProxies, ExpireProxy, turn)
                && ChoreDone(s.expiredProxies, s.closedIdle, CloseIdle, turn)
                && ChoreDone(s.closedIdle, s.pumped, PumpStream, turn)
      ensures Untroubled(turn) ==> ok
    {
      s := Stages(begun, answered, answered, answered, answered, answered, answered, answered, answered);
      ok := RunChore(ExpireResolution, turn);
      if !ok {
        return;
      }
      ghost var a := T();
      ok := RunChore(ExpireProxy, turn);
      if !ok {
        return;
      }
      ghost var b := T();
      ProgressTransitive(answered, a, b);
      ok := RunChore(CloseIdle, turn);
      if !ok {
        return;
      }
      ghost var c := T();
      ProgressTransitive(answered, b, c);
      ok := RunChore(PumpStream, turn);
      ghost var d := T();
      if ok {
        ProgressTransitive(answered, c, d);
      }
      s := Stages(begun, answered, a, b, c, d, d, d, d);
    }

    method ServeQueues(turn: Turn, ghost before: Stages) returns (ok: bool, ghost s: Stages)
      requires Good(T()) && T() == before.pumped
      modifies this
      ensures s == before.(wrote := s.wrote, wroteUpstream := s.wroteUpstream, readUpstream := s.readUpstream)
      ensures ok ==> Good(T()) && Progress(before.pumped, T()) && T() == s.readUpstream
      ensures ok ==>
                && QueueDone(s.pumped, s.wrote, ClientWrites, turn)
                && QueueDone(s.wrote, s.wroteUpstream, UpstreamWrites, turn)
                && QueueDone(s.wroteUpstream, s.readUpstream, UpstreamReads, turn)
      ensures Untroubled(turn) ==> ok
    {
      s := before;
      ok := RunQueue(ClientWrites, turn);
      if !ok {
        return;
      }
      ghost var a := T();
      ok := RunQueue(UpstreamWrites, turn);
      if !ok {
        return;
      }
      ghost var b := T();
      ProgressTransitive(before.pumped, a, b);
      ok := RunQueue(UpstreamReads, turn);
      ghost var c := T();
      if ok {
        ProgressTransitive(before.pumped, b, c);
      }
      s := before.(wrote := a, wroteUpstream := b, readUpstream := c);
    }

    /** The top of the loop: begin to drain if asked to; the worker is done when it drains and nothing is left, or when
        that takes too long and it has closed what was left. */
    method Top(turn: Turn) returns (done: bool)
      requires Good(T())
      modifies this
      ensures Good(T()) && Progress(old(T()), T()) && (old(draining) || turn.requested ==> draining)
      ensures done ==> draining && connections == map[]
      ensures !done ==> Begun(old(T()), T(), turn.requested)
      ensures !done && draining ==> connections != map[] && !turn.deadline
    {
      ProgressReflexive(T());
      if turn.requested && !draining {
        BeginShutdown();
      }
      if draining && connections == map[] {
        return true;
      }
      ghost var begun := T();
      if draining && turn.deadline {
        CloseAllConnections();
        ProgressTransitive(old(T()), begun, T());
        return true;
      }
      done := false;
    }

    /** One turn of the loop: exactly the stages it is made of. It fails only if the kernel makes trouble. */
    method RunTurn(turn: Turn) returns (outcome: Outcome, ghost s: Stages)
      requires Good(T())
      modifies this
      ensures outcome != Failed ==>
        Good(T()) && Progress(old(T()), T()) && (old(draining) || turn.requested ==> draining)
      ensures outcome == Done ==> draining && connections == map[]
      ensures outcome == Running ==> TurnDone(old(T()), T(), turn, L(), s)
      ensures Untroubled(turn) ==> outcome != Failed
    {
      ghost var start := T();
      var done := Top(turn);
      ghost var begun := T();
      s := Stages(begun, begun, begun, begun, begun, begun, begun, begun, begun);
      if done {
        outcome := Done;
        return;
      }
      var ok;
      ok, s := DoStages(turn, begun);
      if ok {
        ProgressTransitive(start, begun, T());
      }
      outcome := if ok then Running else Failed;
    }

    /** Everything but the top of the loop. */
    method DoStages(turn: Turn, ghost begun: Table) returns (ok: bool, ghost s: Stages)
      requires Good(T()) && T() == begun
      modifies this
      ensures ok ==> Good(T()) && Progress(begun, T()) && StagesDone(begun, T(), turn, L(), s)
      ensures Untroubled(turn) ==> ok
    {
      s := Stages(begun, begun, begun, begun, begun, begun, begun, begun, begun);
      ok := ProcessDnsResults(turn.answers(Answering), turn.kernel(Answering));
      if !ok {
        return;
      }
      ghost var answered := T();
      ok, s := DoChores(turn, begun, answered);
      if !ok {
        return;
      }
      ghost var pumped := T();
      ProgressTransitive(begun, answered, pumped);
      ok, s := ServeQueues(turn, s);
      if !ok {
        return;
      }
      ghost var served := T();
      ProgressTransitive(begun, pumped, served);
      ok := DispatchAll(turn);
      if ok {
        ProgressTransitive(begun, served, T());
      }
    }

    /** Every run, from any state that a run can reach, turn by turn. */
    method Run(script: seq<Turn>) returns (outcome: Outcome, ghost tables: seq<Table>)
      requires Good(T())
      modifies this
      ensures outcome != Failed ==> Good(T()) && Progress(old(T()), T())
      ensures outcome == Done ==> draining && connections == map[]
      ensures TurnChain(tables, script, L()) && tables[0] == old(T())
      ensures outcome == Running ==> |tables| == |script| + 1 && tables[|script|] == T()
      ensures (forall i | 0 <= i < |script| :: Untroubled(script[i])) ==> outcome != Failed
    {
      ghost var start := T();
      ProgressReflexive(start);
      outcome, tables := Running, [start];
      for i := 0 to |script|
        invariant Good(T()) && Progress(start, T()) && outcome == Running
        invariant |tables| == i + 1 && tables[0] == start && tables[i] == T() && TurnChain(tables, script, L())
      {
        ghost var before, s := T(), Stages(T(), T(), T(), T(), T(), T(), T(), T(), T());
        outcome, s := RunTurn(script[i]);
        if outcome != Failed {
          ProgressTransitive(start, before, T());
        }
        if outcome != Running {
          return;
        }
        OneMoreTurn(tables, script, L(), T(), s);
        tables := tables + [T()];
      }
    }
  }
}
