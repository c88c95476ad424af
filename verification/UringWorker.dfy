/** The io_uring worker (worker.rs): submissions, one handler per kind of completion, timers and shutdown, over a slab
    of connection records with pending flags. Every handler is proved to perform exactly one step of the protocol in
    Exchange.dfy on the connection it is for, to leave all others alone, and to submit exactly the operation that the
    connection then waits for. */
module UringWorker {
  import opened Common
  import opened Http
  import opened Exchange
  import opened Identifiers
  import opened UringState
  import opened UringProgress
  import opened BufferRing

  class IoUringWorker {
    const setup: Setup
    const maxConnections: nat
    const timeouts: Phase -> nat
    const ring: ProvidedBufferRing
    var connections: map<nat, Connection>
    var generations: seq<nat>

    /** The protocol state of each connection. */
    ghost var exchanges: map<nat, Exchange>

    // The environment's side: how often each slot has been occupied, and what the kernel and the resolver owe.
    var occupations: seq<nat>
    var inflight: multiset<Op>
    var lookups: set<Lookup>

    ghost function W(): World
      reads this
    {
      World(setup, connections, exchanges, generations, occupations, inflight, lookups)
    }

    /** The operation identifier names the connection that now occupies the slot. */
    ghost predicate Current(slot: nat, generation: nat)
      reads this
    {
      slot in connections && connections[slot].generation == generation
    }

    /** The record of a slot's occupant encodes its protocol state. */
    ghost predicate Holds(slot: nat)
      reads this
    {
      Placed(W(), slot) && InOrder(exchanges[slot]) && Represents(connections[slot], exchanges[slot])
    }

    constructor (setup: Setup, maxConnections: nat, timeouts: Phase -> nat, ring: ProvidedBufferRing)
      ensures this.setup == setup && this.maxConnections == maxConnections && this.timeouts == timeouts
        && this.ring == ring
      ensures W() == World(setup, map[], map[], [], [], multiset{}, {})
    {
      this.setup, this.maxConnections, this.timeouts, this.ring := setup, maxConnections, timeouts, ring;
      connections, generations := map[], [];
      exchanges, occupations, inflight, lookups := map[], [], multiset{}, {};
    }

    // -------------------------------------------------------------- submissions
    //
    // Each takes, as a ghost, the protocol state that the connection is in once the operation is submitted.

    /** The record at `slot`, with the flag that the submission sets, encodes `e`. */
    ghost predicate Fits(slot: nat, generation: nat, c: Connection, e: Exchange)
      reads this
    {
      && Placed(W(), slot) && connections[slot].generation == c.generation == generation
      && Represents(c, e)
    }

    method Submit(slot: nat, generation: nat, kind: OperationKind, view: View, ghost e: Exchange)
      requires slot < |occupations|
      modifies this`inflight, this`exchanges
      ensures inflight == old(inflight) + multiset{Op(OperationId(slot, generation, kind), occupations[slot], view)}
      ensures exchanges == old(exchanges)[slot := e]
    {
      inflight := inflight + multiset{Op(OperationId(slot, generation, kind), occupations[slot], view)};
      exchanges := exchanges[slot := e];
    }

    /** Nothing happens for a stale identifier, a send already pending or an empty buffer; a buffer whose rest is
        longer than 32 bits can say is an error; otherwise the unsent rest is handed to the kernel. */
    method SubmitSend(slot: nat, generation: nat, ghost e: Exchange) returns (ok: bool)
      requires slot in connections ==>
        slot < |occupations| && connections[slot].writeOffset <= |connections[slot].writeBuffer|
      modifies this`connections, this`inflight, this`exchanges
      ensures !ok ==> W() == old(W())
      ensures slot !in old(connections) ==> !ok
      ensures slot in old(connections) ==>
                var c := old(connections)[slot];
                if c.generation != generation || c.writePending || c.writeOffset == |c.writeBuffer|
                then ok && W() == old(W())
                else ok == (|c.writeBuffer| - c.writeOffset <= U32_MAX)
      ensures slot in old(connections) && ok ==>
                var c := old(connections)[slot];
                !c.writePending && old(Fits(slot, generation, c.(writePending := true), e)) && e.sent < |e.out| ==>
                  Moves(old(W()), W(), slot, e)
      ensures slot in old(connections) && e.sent < |e.out| && IsSending(e.stage) ==>
                var c := old(connections)[slot];
                !c.writePending && old(Fits(slot, generation, c.(writePending := true), e)) ==> ok == Submittable(e)
      ensures slot in old(connections) && slot in connections ==> Unmoved(old(connections)[slot], connections[slot])
    {
      if slot !in connections {
        return false;
      }
      var c := connections[slot];
      if c.generation != generation || c.writePending {
        return true;
      }
      var remaining := c.writeBuffer[c.writeOffset..];
      if remaining == "" {
        return true;
      }
      if |remaining| > U32_MAX {
        return false;
      }
      Submit(slot, generation, Write, Window(c.writeBuffer, c.writeOffset), e);
      connections := connections[slot := c.(writePending := true)];
      return true;
    }

    method SubmitRecv(slot: nat, generation: nat, ghost e: Exchange) returns (ok: bool)
      requires slot in connections ==> slot < |occupations|
      modifies this`connections, this`inflight, this`exchanges
      ensures ok == (slot in old(connections))
      ensures !ok ==> W() == old(W())
      ensures ok ==>
                var c := old(connections)[slot];
                && (c.generation != generation || c.readPending ==> W() == old(W()))
                && (!c.readPending && old(Fits(slot, generation, c.(readPending := true), e)) ==>
                  Moves(old(W()), W(), slot, e))
      ensures slot in old(connections) && slot in connections ==> Unmoved(old(connections)[slot], connections[slot])
    {
      if slot !in connections {
        return false;
      }
      var c := connections[slot];
      if c.generation != generation || c.readPending {
        return true;
      }
      Submit(slot, generation, Read, NoMemory, e);
      connections := connections[slot := c.(readPending := true)];
      return true;
    }

    method SubmitProxyConnect(slot: nat, generation: nat, ghost e: Exchange)
      requires slot in connections && connections[slot].proxy.Some? && connections[slot].proxy.value.address.Some?
      requires var c := connections[slot];
               Fits(slot, generation, c.WithProxy(c.proxy.value.(operationPending := true)), e) && e.stage.Connecting?
      modifies this`connections, this`inflight, this`exchanges
      ensures Moves(old(W()), W(), slot, e)
      ensures slot in old(connections) && slot in connections ==> Unmoved(old(connections)[slot], connections[slot])
    {
      var c := connections[slot];
      Submit(slot, generation, ProxyConnect, Peer(c.proxy.value.address.value), e);
      connections := connections[slot := c.WithProxy(c.proxy.value.(operationPending := true))];
    }

    method SubmitProxyWrite(slot: nat, generation: nat, ghost e: Exchange) returns (ok: bool)
      requires slot in connections && connections[slot].proxy.Some? && e.requestSent <= |e.request|
      requires var c := connections[slot];
               Fits(slot, generation, c.WithProxy(c.proxy.value.(operationPending := true)), e) && e.stage.Requesting?
      modifies this`connections, this`inflight, this`exchanges
      ensures ok == Submittable(e)
      ensures if ok then Moves(old(W()), W(), slot, e) else W() == old(W())
      ensures slot in old(connections) && slot in connections ==> Unmoved(old(connections)[slot], connections[slot])
    {
      var c := connections[slot];
      var p := c.proxy.value;
      if |p.requestBuffer[p.requestOffset..]| > U32_MAX {
        return false;
      }
      Submit(slot, generation, ProxyWrite, Window(p.requestBuffer, p.requestOffset), e);
      connections := connections[slot := c.WithProxy(p.(operationPending := true))];
      return true;
    }

    method SubmitProxyRead(slot: nat, generation: nat, ghost e: Exchange)
      requires slot in connections && connections[slot].proxy.Some?
      requires var c := connections[slot];
               Fits(slot, generation, c.WithProxy(c.proxy.value.(operationPending := true)), e) && e.stage.Responding?
      modifies this`connections, this`inflight, this`exchanges
      ensures Moves(old(W()), W(), slot, e)
      ensures slot in old(connections) && slot in connections ==> Unmoved(old(connections)[slot], connections[slot])
    {
      var c := connections[slot];
      Submit(slot, generation, ProxyRead, NoMemory, e);
      connections := connections[slot := c.WithProxy(c.proxy.value.(operationPending := true))];
    }

    method Remove(slot: nat)
      modifies this`connections, this`exchanges
      ensures W() == Without(old(W()), slot)
    {
      connections := connections - {slot};
      exchanges := exchanges - {slot};
    }

    // -------------------------------------------------------------- client completions

    /** A send to the client has completed. `ready` says whether a file stream has something to deliver. */
    method HandleWriteCompletion(operation: OperationId, result: int, ready: bool, now: nat) returns (ok: bool)
      requires Current(operation.slot, operation.generation) ==>
                 Holds(operation.slot) && IsSending(exchanges[operation.slot].stage)
      modifies this`connections, this`exchanges, this`inflight
      ensures !old(Current(operation.slot, operation.generation)) ==> ok && W() == old(W())
      ensures old(Current(operation.slot, operation.generation)) ==>
                ok == Submittable(OnSent(old(exchanges)[operation.slot], result, ready))
      ensures old(Current(operation.slot, operation.generation)) && ok ==>
                Moves(old(W()), W(), operation.slot, OnSent(old(exchanges)[operation.slot], result, ready))
      ensures ok ==> OnTime(old(W()), W(), operation.slot, now)
    {
      var slot := operation.slot;
      if slot !in connections {
        return true;
      }
      var c := connections[slot];
      if c.generation != operation.generation {
        return true;
      }
      ghost var before, e := W(), exchanges[slot];
      c := c.(writePending := false);
      if result < 0 {
        if RetrySend(result) {
          connections := connections[slot := c];
          ok := SubmitSend(slot, operation.generation, e);
          if ok {
            StoreThenMove(before, c, W(), slot, e);
          }
          return;
        }
        Remove(slot);
        return true;
      }
      if result == 0 {
        Remove(slot);
        return true;
      }
      var remaining := |c.writeBuffer| - c.writeOffset;
      if result > remaining {
        Remove(slot);
        return true;
      }
      c := c.(writeOffset := c.writeOffset + result);
      connections := connections[slot := c];
      if c.writeOffset == |c.writeBuffer| {
        ok := OutputDrained(slot, operation.generation, ready, now, Advance(e, result));
      } else {
        ok := SubmitSend(slot, operation.generation, Advance(e, result));
      }
      if ok {
        StoreThenMove(before, c, W(), slot, OnSent(e, result, ready));
      }
    }

    /** Everything queued for the client has been sent: go on with the file stream or the upstream, or finish. */
    method OutputDrained(slot: nat, generation: nat, ready: bool, now: nat, ghost e: Exchange) returns (ok: bool)
      requires IsSending(e.stage) && e.sent == |e.out| > 0 && e.requestSent <= |e.request| && !e.timedOut
      requires slot in connections && !connections[slot].writePending
      requires Fits(slot, generation, connections[slot].(writePending := true), e)
      modifies this`connections, this`exchanges, this`inflight
      ensures ok == Submittable(AfterDrain(e, ready))
      ensures ok ==> Moves(old(W()), W(), slot, AfterDrain(e, ready))
      ensures ok ==> OnTime(old(W()), W(), slot, now)
    {
      var c := connections[slot];
      ghost var before := W();
      if c.staticStream.Some? {
        c := c.QueueResponse("");
        connections := connections[slot := c];
        ok := AdvanceStaticStream(slot, generation, ready, e);
      } else if c.proxy.Some? {
        c := c.QueueResponse("").WithProxy(c.proxy.value.(progressAt := now));
        connections := connections[slot := c];
        SubmitProxyRead(slot, generation, AfterDrain(e, ready));
        ok := true;
      } else {
        Remove(slot);
        return true;
      }
      if ok {
        StoreThenMove(before, c, W(), slot, AfterDrain(e, ready));
      }
    }

    /** Take the next piece of a file stream, if there is one. */
    method AdvanceStaticStream(slot: nat, generation: nat, ready: bool, ghost e: Exchange) returns (ok: bool)
      requires Placed(W(), slot)
      requires var c := connections[slot];
               && c.generation == generation && !c.readPending && !c.writePending && c.proxy.None?
                 && c.staticStream.Some?
               && c.writeBuffer == "" && c.writeOffset == 0
      modifies this`connections, this`exchanges, this`inflight
      ensures ok == Submittable(NextChunk(e, old(connections)[slot].staticStream.value, ready))
      ensures ok ==> Moves(old(W()), W(), slot, NextChunk(e, old(connections)[slot].staticStream.value, ready))
      ensures slot in connections ==> connections[slot].proxy == None
    {
      var c := connections[slot];
      var stream := c.staticStream.value;
      ghost var before, next := W(), NextChunk(e, stream, ready);
      if !ready {
        exchanges := exchanges[slot := next];
        assert before.connections[slot := c] == before.connections;
        return true;
      }
      if stream.chunks == [] {
        Remove(slot);
        return true;
      }
      c := c.(staticStream := Some(stream.(chunks := stream.chunks[1..]))).QueueResponse(stream.chunks[0]);
      connections := connections[slot := c];
      ok := SubmitSend(slot, generation, next);
      if ok {
        StoreThenMove(before, c, W(), slot, next);
      }
    }

    /** The received bytes, or an error of the run: the selected buffer goes back to the kernel in every case. */
    method TakeBuffer(result: int, bufferId: Option<nat>) returns (received: Option<Bytes>)
      requires ring.Valid() && (bufferId.Some? ==> bufferId.value in ring.lent)
      modifies ring`tail, ring`published, ring`lent, ring.entries
      ensures ring.Valid() && ring.lent == old(ring.lent) - (if bufferId.Some? then {bufferId.value} else {})
      ensures received == old(ring.Payload(result, bufferId))
    {
      if result > 0 {
        if bufferId == None {
          return None;
        }
        received := ring.CopyAndRelease(bufferId.value, result);
      } else {
        if bufferId.Some? {
          var empty := ring.CopyAndRelease(bufferId.value, 0);
        }
        received := Some("");
      }
    }

    /** A receive from the client has completed; `plan` is what routing will say about the request, if it is
        complete. */
    method HandleReceived(operation: OperationId, result: int, data: Bytes, plan: Plan, now: nat) returns (ok: bool)
      requires Current(operation.slot, operation.generation) ==>
                 Holds(operation.slot) && exchanges[operation.slot].stage.Reading?
      modifies this`connections, this`exchanges, this`inflight, this`lookups
      ensures !old(Current(operation.slot, operation.generation)) ==> ok && W() == old(W())
      ensures old(Current(operation.slot, operation.generation)) ==>
                ok == Submittable(OnReceived(setup, old(exchanges)[operation.slot], result, data, plan))
      ensures old(Current(operation.slot, operation.generation)) && ok ==>
                Moves(old(W()), W(), operation.slot,
                  OnReceived(setup, old(exchanges)[operation.slot], result, data, plan))
      ensures ok ==> OnTime(old(W()), W(), operation.slot, now)
    {
      var slot, generation := operation.slot, operation.generation;
      if slot !in connections || connections[slot].generation != generation {
        return true;
      }
      ok := ContinueReceive(slot, generation, result, data, plan, now, exchanges[slot]);
    }

    /** The client's receive has ended with bytes, or without any. */
    method ContinueReceive(
        slot: nat, generation: nat, result: int, data: Bytes, plan: Plan, now: nat, ghost e: Exchange)
      returns (ok: bool)
      requires slot in connections && Fits(slot, generation, connections[slot], e)
      requires e.stage.Reading? && InOrder(e)
      modifies this`connections, this`exchanges, this`inflight, this`lookups
      ensures ok == Submittable(OnReceived(setup, e, result, data, plan))
      ensures ok ==> Moves(old(W()), W(), slot, OnReceived(setup, e, result, data, plan))
      ensures ok ==> OnTime(old(W()), W(), slot, now)
    {
      ghost var before := W();
      if result <= 0 && !RetryRecv(result) {
        Remove(slot);
        return true;
      }
      var c := connections[slot].(readPending := false);
      connections := connections[slot := c];
      if result < 0 {
        ok := SubmitRecv(slot, generation, e);
      } else {
        var intake := ReceiveRequest(setup.maxRead, c.requestBuffer, c.pendingRequest, data);
        ok := ContinueRequest(slot, generation, intake, plan, now, e);
      }
      if ok {
        StoreThenMove(before, c, W(), slot, OnReceived(setup, e, result, data, plan));
      }
    }

    /** More of the request has arrived: wait for the rest, refuse it, or answer it. */
    method ContinueRequest(
        slot: nat, generation: nat, intake: Intake, plan: Plan, now: nat, ghost e: Exchange) returns (ok: bool)
      requires Placed(W(), slot) && connections[slot].generation == generation
      requires Represents(connections[slot].(readPending := true), e) && !connections[slot].readPending
      requires e.stage.Reading? && InOrder(e) && e.log.fromUpstream == ""
      modifies this`connections, this`exchanges, this`inflight, this`lookups
      ensures ok == Submittable(OnIntake(setup, e, intake, plan))
      ensures ok ==> Moves(old(W()), W(), slot, OnIntake(setup, e, intake, plan))
      ensures ok && slot in connections && connections[slot].proxy.Some? ==>
        connections[slot].proxy.value.progressAt == now
    {
      var c := connections[slot];
      ghost var before, next := W(), OnIntake(setup, e, intake, plan);
      match intake {
        case More(buffer, pending) =>
          c := c.(requestBuffer := buffer, pendingRequest := pending);
          connections := connections[slot := c];
          ok := SubmitRecv(slot, generation, next);
        case Rejected(refusal) =>
          c := c.(pendingRequest := None).QueueResponse(setup.render(Refused(refusal)));
          connections := connections[slot := c];
          ok := SubmitSend(slot, generation, next);
        case Ready(head, body) =>
          c := c.(pendingRequest := None);
          connections := connections[slot := c];
          ok := PrepareResponse(slot, generation, head, body, plan, now, e);
      }
      if ok {
        StoreThenMove(before, c, W(), slot, next);
      }
    }

    /** A connection between two operations of a request without upstream. */
    ghost predicate Unoccupied(c: Connection) {
      !c.readPending && !c.writePending && c.staticStream.None?
    }

    method PrepareResponse(
        slot: nat, generation: nat, head: RequestHead, body: Bytes, plan: Plan, now: nat, ghost e: Exchange)
      returns (ok: bool)
      requires Placed(W(), slot) && connections[slot].generation == generation
      requires Unoccupied(connections[slot]) && connections[slot].proxy.None?
      requires connections[slot].writeBuffer == e.out == "" && connections[slot].writeOffset == e.sent == 0
      requires e.log.fromUpstream == "" && !e.timedOut
      modifies this`connections, this`exchanges, this`inflight, this`lookups
      ensures ok == Submittable(Dispatch(setup, e, head, body, plan))
      ensures ok ==> Moves(old(W()), W(), slot, Dispatch(setup, e, head, body, plan))
      ensures ok && slot in connections && connections[slot].proxy.Some? ==>
        connections[slot].proxy.value.progressAt == now
    {
      var c := connections[slot];
      ghost var before, next := W(), Dispatch(setup, e, head, body, plan);
      match plan {
        case NoListener =>
          Remove(slot);
          return true;
        case Respond(status, text) =>
          var response := setup.render(Configured(status, text));
          c := c.QueueResponse(if |response| > setup.maxWrite then setup.render(ResponseTooLarge) else response);
        case Serve(first, stream) =>
          c := c.(staticStream := stream).QueueResponse(first);
        case NoUpstream =>
          ok := QueueProxyError(slot, generation, BadUpstream, e);
          return;
        case Forward(url, resolverRuns) =>
          ok := StartProxy(slot, generation, url, head, body, resolverRuns, now, e);
          return;
      }
      connections := connections[slot := c];
      ok := SubmitSend(slot, generation, next);
      if ok {
        StoreThenMove(before, c, W(), slot, next);
      }
    }

    /** Drop the upstream half and queue a notice instead. */
    method QueueProxyError(slot: nat, generation: nat, notice: Notice, ghost e: Exchange) returns (ok: bool)
      requires slot in connections && connections[slot].generation == generation ==>
        Placed(W(), slot) && Unoccupied(connections[slot])
      modifies this`connections, this`exchanges, this`inflight
      ensures !old(Current(slot, generation)) ==> ok && W() == old(W())
      ensures old(Current(slot, generation)) ==> ok == Submittable(Reply(e, setup.render(notice)))
      ensures old(Current(slot, generation)) && ok ==> Moves(old(W()), W(), slot, Reply(e, setup.render(notice)))
      ensures old(Current(slot, generation)) && slot in connections ==> connections[slot].proxy == None
    {
      if slot !in connections {
        return true;
      }
      var c := connections[slot];
      if c.generation != generation {
        return true;
      }
      ghost var before := W();
      c := c.(proxy := None).QueueResponse(setup.render(notice));
      connections := connections[slot := c];
      ok := SubmitSend(slot, generation, Reply(e, setup.render(notice)));
      if ok {
        StoreThenMove(before, c, W(), slot, Reply(e, setup.render(notice)));
      }
    }

    method StartProxy(
        slot: nat, generation: nat, url: Bytes, head: RequestHead, body: Bytes, resolverRuns: bool, now: nat,
        ghost e: Exchange)
      returns (ok: bool)
      requires Placed(W(), slot) && connections[slot].generation == generation
      requires Unoccupied(connections[slot]) && connections[slot].proxy.None?
      requires connections[slot].writeBuffer == e.out == "" && connections[slot].writeOffset == e.sent == 0
      requires e.log.fromUpstream == "" && !e.timedOut
      modifies this`connections, this`exchanges, this`inflight, this`lookups
      ensures ok == Submittable(Dispatch(setup, e, head, body, Forward(url, resolverRuns)))
      ensures ok ==> Moves(old(W()), W(), slot, Dispatch(setup, e, head, body, Forward(url, resolverRuns)))
      ensures ok && slot in connections && connections[slot].proxy.Some? ==>
        connections[slot].proxy.value.progressAt == now
    {
      ghost var before, next := W(), Dispatch(setup, e, head, body, Forward(url, resolverRuns));
      var request := setup.forward(url, head, body);
      if request == None {
        ok := QueueProxyError(slot, generation, BadUpstream, e);
        return;
      }
      if |request.value| > setup.maxRead {
        ok := QueueProxyError(slot, generation, UpstreamRequestTooLarge, e);
        return;
      }
      var c := connections[slot].WithProxy(
        Proxy(false, None, [], request.value, 0, false, ResolvingPhase, now, false, false));
      connections := connections[slot := c];
      if !resolverRuns {
        ok := QueueProxyError(slot, generation, ResolutionFailed, e);
        if ok {
          StoreThenMove(before, c, W(), slot, next);
        }
        return;
      }
      exchanges := exchanges[slot := next];
      lookups := lookups + {Lookup(slot, generation, occupations[slot])};
      return true;
    }

    // -------------------------------------------------------------- resolution and connecting

    /** A record whose upstream half is about to connect, apart from the address to use. */
    ghost predicate AboutToConnect(c: Connection, e: Exchange) {
      && Unoccupied(c) && c.writeBuffer == e.out && c.writeOffset == e.sent
      && c.proxy.Some?
      && var p := c.proxy.value;
         && p.requestBuffer == e.request && p.requestOffset == e.requestSent
         && p.responseStarted == (e.log.fromUpstream != "")
         && p.phase == ConnectingPhase && !p.timedOut && !p.operationPending
    }

    /** A name has been resolved, or not; `failures` upstream sockets cannot be created before one can. */
    method FinishResolution(
        slot: nat, generation: nat, answer: Option<seq<Address>>, failures: nat, now: nat) returns (ok: bool)
      requires Current(slot, generation) ==> Holds(slot)
      modifies this`connections, this`exchanges, this`inflight
      ensures !(old(Current(slot, generation)) && old(exchanges)[slot].stage.Resolving?) ==> ok && W() == old(W())
      ensures old(Current(slot, generation)) && old(exchanges)[slot].stage.Resolving? ==>
                ok == Submittable(OnResolved(setup, old(exchanges)[slot], answer, failures))
      ensures old(Current(slot, generation)) && old(exchanges)[slot].stage.Resolving? && ok ==>
                Moves(old(W()), W(), slot, OnResolved(setup, old(exchanges)[slot], answer, failures))
      ensures ok ==> OnTime(old(W()), W(), slot, now)
    {
      if slot !in connections {
        return true;
      }
      var c := connections[slot];
      if c.generation != generation || c.proxy.None? || c.proxy.value.phase != ResolvingPhase {
        return true;
      }
      ghost var before, e := W(), exchanges[slot];
      if answer == None {
        ok := QueueProxyError(slot, generation, ResolutionFailed, e);
        return;
      }
      if answer.value == [] {
        ok := QueueProxyError(slot, generation, NoAddress, e);
        return;
      }
      c := c.WithProxy(c.proxy.value.(addresses := answer.value).Transition(ConnectingPhase, now));
      connections := connections[slot := c];
      ok := TryNextProxyAddress(slot, generation, failures, now, e.(log := e.log.(resolved := answer.value)));
      if ok {
        StoreThenMove(before, c, W(), slot, OnResolved(setup, e, answer, failures));
      }
    }

    /** The upstream half once a socket was created for `address`. */
    function WithSocket(p: Proxy, address: Address, now: nat): Proxy {
      p.(hasSocket := true, address := Some(address), progressAt := now)
    }

    /** A socket is there: start to connect it. */
    method ConnectTo(slot: nat, generation: nat, address: Address, now: nat, ghost next: Exchange)
      requires slot in connections && connections[slot].proxy.Some? && next.stage.Connecting?
      requires var c := connections[slot];
               Fits(slot, generation, c.WithProxy(WithSocket(c.proxy.value, address, now).(operationPending := true)),
                 next)
      modifies this`connections, this`exchanges, this`inflight
      ensures Moves(old(W()), W(), slot, next)
      ensures slot in connections && connections[slot].proxy.Some? ==>
        && connections[slot].proxy.value.progressAt == now
        && connections[slot].proxy.value.addresses == old(connections)[slot].proxy.value.addresses
    {
      ghost var before := W();
      var c := connections[slot].WithProxy(WithSocket(connections[slot].proxy.value, address, now));
      connections := connections[slot := c];
      SubmitProxyConnect(slot, generation, next);
      StoreThenMove(before, c, W(), slot, next);
    }

    lemma SocketRepresents(c: Connection, e: Exchange, all: seq<Address>, failures: nat, now: nat)
      requires AboutToConnect(c, e) && failures < |all| && c.proxy.value.addresses == all[failures + 1..]
      ensures var next := TryNext(setup, e, all, failures);
              && next.stage.Connecting?
              && Represents(c.WithProxy(WithSocket(c.proxy.value, all[failures], now).(operationPending := true)), next)
    {
    }

    /** Take addresses from the front until a socket can be created, and start to connect it. */
    method TryNextProxyAddress(
        slot: nat, generation: nat, failures: nat, now: nat, ghost e: Exchange) returns (ok: bool)
      requires Placed(W(), slot) && connections[slot].generation == generation
      requires AboutToConnect(connections[slot], e)
      modifies this`connections, this`exchanges, this`inflight
      ensures ok == Submittable(TryNext(setup, e, old(connections)[slot].proxy.value.addresses, failures))
      ensures ok ==> Moves(old(W()), W(), slot,
        TryNext(setup, e, old(connections)[slot].proxy.value.addresses, failures))
      ensures ok && slot in connections && connections[slot].proxy.Some? ==>
        && connections[slot].proxy.value.progressAt == now
        && |connections[slot].proxy.value.addresses| < |old(connections)[slot].proxy.value.addresses|
    {
      ghost var before, next := W(), TryNext(setup, e, connections[slot].proxy.value.addresses, failures);
      var c := connections[slot];
      ghost var all := c.proxy.value.addresses;
      var failed := 0;
      while true
        invariant failed <= |all| && failed <= failures
        invariant W() == before.(connections := connections)
        invariant c == before.connections[slot].WithProxy(
          before.connections[slot].proxy.value.(addresses := all[failed..]))
        invariant connections == before.connections[slot := c]
        decreases |all| - failed
      {
        var p := c.proxy.value;
        if p.addresses == [] {
          ok := QueueProxyError(slot, generation, ConnectionFailed, e.(log := e.log.(tried := e.log.tried + all)));
          break;
        }
        var address := p.addresses[0];
        c := c.WithProxy(p.(addresses := p.addresses[1..]));
        connections := connections[slot := c];
        if failed < failures {
          failed := failed + 1;
          continue;
        }
        SocketRepresents(c, e, all, failures, now);
        ConnectTo(slot, generation, address, now, next);
        ok := true;
        break;
      }
      if ok {
        StoreThenMove(before, c, W(), slot, next);
      }
    }

    /** The proxied connection that an upstream completion is for, unless it is stale. */
    method CurrentProxy(slot: nat, generation: nat) returns (proxy: Option<Proxy>)
      ensures proxy == if Current(slot, generation) then connections[slot].proxy else None
    {
      if slot !in connections || connections[slot].generation != generation {
        return None;
      }
      return connections[slot].proxy;
    }

    /** Give up on the upstream: a notice if nothing was passed on, otherwise the connection is dropped. */
    method FailProxy(slot: nat, generation: nat, notice: Notice, ghost e: Exchange) returns (ok: bool)
      requires Placed(W(), slot) && connections[slot].generation == generation && Unoccupied(connections[slot])
      requires connections[slot].proxy.Some?
        && connections[slot].proxy.value.responseStarted == (e.log.fromUpstream != "")
      modifies this`connections, this`exchanges, this`inflight
      ensures ok == Submittable(FailUpstream(setup, e, notice))
      ensures ok ==> Moves(old(W()), W(), slot, FailUpstream(setup, e, notice))
      ensures slot in connections ==> connections[slot].proxy == None
    {
      if slot in connections && connections[slot].proxy.Some? && connections[slot].proxy.value.responseStarted {
        Remove(slot);
        return true;
      }
      ok := QueueProxyError(slot, generation, notice, e);
    }

    method HandleProxyConnect(operation: OperationId, result: int, failures: nat, now: nat) returns (ok: bool)
      requires Current(operation.slot, operation.generation) ==>
                 Holds(operation.slot) && exchanges[operation.slot].stage.Connecting?
      modifies this`connections, this`exchanges, this`inflight
      ensures !old(Current(operation.slot, operation.generation)) ==> ok && W() == old(W())
      ensures old(Current(operation.slot, operation.generation)) ==>
                ok == Submittable(OnConnected(setup, old(exchanges)[operation.slot], result, failures))
      ensures old(Current(operation.slot, operation.generation)) && ok ==>
                Moves(old(W()), W(), operation.slot,
                  OnConnected(setup, old(exchanges)[operation.slot], result, failures))
      ensures ok ==> OnTime(old(W()), W(), operation.slot, now)
    {
      var slot, generation := operation.slot, operation.generation;
      var proxy := CurrentProxy(slot, generation);
      if proxy == None {
        return true;
      }
      ghost var before, e := W(), exchanges[slot];
      var p := proxy.value.(operationPending := false);
      if !p.timedOut && result >= 0 {
        p := p.Transition(WritingRequest, now);
      }
      var c := connections[slot].WithProxy(p);
      connections := connections[slot := c];
      if p.timedOut {
        ok := FailProxy(slot, generation, TimedOut(ConnectingPhase), e);
      } else if result < 0 {
        ok := TryNextProxyAddress(slot, generation, failures, now, e);
      } else {
        ok := SubmitProxyWrite(slot, generation, OnConnected(setup, e, result, failures));
      }
      if ok {
        StoreThenMove(before, c, W(), slot, OnConnected(setup, e, result, failures));
      }
    }

    method HandleProxyWrite(operation: OperationId, result: int, now: nat) returns (ok: bool)
      requires Current(operation.slot, operation.generation) ==>
                 Holds(operation.slot) && exchanges[operation.slot].stage.Requesting?
      modifies this`connections, this`exchanges, this`inflight
      ensures !old(Current(operation.slot, operation.generation)) ==> ok && W() == old(W())
      ensures old(Current(operation.slot, operation.generation)) ==>
                ok == Submittable(OnRequestSent(setup, old(exchanges)[operation.slot], result))
      ensures old(Current(operation.slot, operation.generation)) && ok ==>
                Moves(old(W()), W(), operation.slot, OnRequestSent(setup, old(exchanges)[operation.slot], result))
      ensures ok ==> OnTime(old(W()), W(), operation.slot, now)
    {
      var slot, generation := operation.slot, operation.generation;
      var proxy := CurrentProxy(slot, generation);
      if proxy == None {
        return true;
      }
      ghost var before, e := W(), exchanges[slot];
      ghost var next := OnRequestSent(setup, e, result);
      var p := proxy.value.(operationPending := false);
      var c := connections[slot].WithProxy(p);
      connections := connections[slot := c];
      if p.timedOut {
        ok := FailProxy(slot, generation, TimedOut(WritingRequest), e);
      } else if RetrySend(result) {
        ok := SubmitProxyWrite(slot, generation, next);
      } else if result <= 0 {
        ok := FailProxy(slot, generation, WriteFailed, e);
      } else if result > |p.requestBuffer| - p.requestOffset {
        ok := FailProxy(slot, generation, InvalidWrite, e);
      } else {
        ok := AdvanceRequest(slot, generation, result, now, next);
      }
      if ok {
        StoreThenMove(before, c, W(), slot, next);
      }
    }

    /** Part of the request has been sent: send the rest, or read the response. */
    method AdvanceRequest(slot: nat, generation: nat, written: nat, now: nat, ghost e: Exchange) returns (ok: bool)
      requires slot in connections && connections[slot].proxy.Some?
      requires (e.stage.Requesting? || e.stage.Responding?) && !e.timedOut
      requires e.requestSent <= |e.request| && (e.stage.Responding? <==> e.requestSent == |e.request|)
      requires var c := connections[slot];
               var p := c.proxy.value;
               Fits(slot, generation,
                 c.WithProxy(p.(requestOffset := p.requestOffset + written, operationPending := true,
                                phase := if e.stage.Responding? then ReadingResponse else p.phase)), e)
      modifies this`connections, this`exchanges, this`inflight
      ensures ok == Submittable(e)
      ensures ok ==> Moves(old(W()), W(), slot, e)
      ensures ok && slot in connections && connections[slot].proxy.Some? ==>
        && connections[slot].proxy.value.progressAt == now
        && connections[slot].proxy.value.requestOffset == old(connections)[slot].proxy.value.requestOffset + written
    {
      ghost var before := W();
      var c := connections[slot];
      var p := c.proxy.value.(requestOffset := c.proxy.value.requestOffset + written, progressAt := now);
      if p.requestOffset == |p.requestBuffer| {
        c := c.WithProxy(p.Transition(ReadingResponse, now));
        connections := connections[slot := c];
        SubmitProxyRead(slot, generation, e);
        ok := true;
      } else {
        c := c.WithProxy(p);
        connections := connections[slot := c];
        ok := SubmitProxyWrite(slot, generation, e);
      }
      if ok {
        StoreThenMove(before, c, W(), slot, e);
      }
    }

    method HandleResponse(operation: OperationId, result: int, data: Bytes, now: nat) returns (ok: bool)
      requires Current(operation.slot, operation.generation) ==>
                 Holds(operation.slot) && exchanges[operation.slot].stage.Responding?
      requires result > 0 ==> |data| == result
      modifies this`connections, this`exchanges, this`inflight
      ensures !old(Current(operation.slot, operation.generation)) ==> ok && W() == old(W())
      ensures old(Current(operation.slot, operation.generation)) ==>
                ok == Submittable(OnResponded(setup, old(exchanges)[operation.slot], result, data))
      ensures old(Current(operation.slot, operation.generation)) && ok ==>
                Moves(old(W()), W(), operation.slot,
                  OnResponded(setup, old(exchanges)[operation.slot], result, data))
      ensures ok ==> OnTime(old(W()), W(), operation.slot, now)
    {
      var slot, generation := operation.slot, operation.generation;
      var proxy := CurrentProxy(slot, generation);
      if proxy == None {
        return true;
      }
      ok := ContinueResponse(slot, generation, result, data, now, exchanges[slot]);
    }

    /** More of the response has arrived: pass it on, or find that there is no more, or give up. */
    method ContinueResponse(
        slot: nat, generation: nat, result: int, data: Bytes, now: nat, ghost e: Exchange) returns (ok: bool)
      requires slot in connections && connections[slot].proxy.Some?
      requires Fits(slot, generation, connections[slot], e) && e.stage.Responding? && InOrder(e)
      requires result > 0 ==> |data| == result
      modifies this`connections, this`exchanges, this`inflight
      ensures ok == Submittable(OnResponded(setup, e, result, data))
      ensures ok ==> Moves(old(W()), W(), slot, OnResponded(setup, e, result, data))
      ensures ok ==> OnTime(old(W()), W(), slot, now)
    {
      ghost var before, next := W(), OnResponded(setup, e, result, data);
      var c := connections[slot];
      var p := c.proxy.value.(operationPending := false);
      c := c.WithProxy(p);
      if !p.timedOut && result == 0 {
        Remove(slot);
        return true;
      }
      if !p.timedOut && result > 0 && |data| <= setup.maxWrite {
        c := c.WithProxy(p.(responseStarted := true, progressAt := now)).QueueResponse(data);
      }
      connections := connections[slot := c];
      if p.timedOut {
        ok := FailProxy(slot, generation, TimedOut(ReadingResponse), e);
      } else if RetryRecv(result) {
        SubmitProxyRead(slot, generation, next);
        ok := true;
      } else if result < 0 {
        ok := FailProxy(slot, generation, ResponseFailed, e);
      } else if |data| > setup.maxWrite {
        ok := FailProxy(slot, generation, ChunkTooLarge, e);
      } else {
        ok := SubmitSend(slot, generation, next);
      }
      if ok {
        StoreThenMove(before, c, W(), slot, next);
      }
    }

    // -------------------------------------------------------------- completions
    //
    // The kernel reports an operation in flight exactly once. Each of these takes it out of flight and handles it.

    method CompleteWrite(op: Op, result: int, ready: bool, now: nat) returns (ok: bool)
      requires Sound(W()) && op in inflight && op.id.kind.Write?
      modifies this`connections, this`exchanges, this`inflight
      ensures ok == CanSubmit(old(W()), op.id.slot, Sent(result, ready))
      ensures ok ==> Completed(old(W()), W(), op, Sent(result, ready))
      ensures ok ==> OnTime(old(W()), W(), op.id.slot, now)
    {
      ghost var before := W();
      CompletionIsFresh(before, op);
      inflight := inflight - multiset{op};
      ghost var gap, next := W(), OnSent(exchanges[op.id.slot], result, ready);
      ok := HandleWriteCompletion(op.id, result, ready, now);
      SentSubmits(before, op, result, ready, next);
      if ok {
        SentIsCompleted(before, gap, W(), op, result, ready, next);
      }
    }

    method CompleteRead(op: Op, result: int, data: Bytes, plan: Plan, now: nat) returns (ok: bool)
      requires Sound(W()) && op in inflight && op.id.kind.Read?
      requires result > 0 ==> |data| == result
      modifies this`connections, this`exchanges, this`inflight, this`lookups
      ensures ok == CanSubmit(old(W()), op.id.slot, Received(result, data, plan))
      ensures ok ==> Completed(old(W()), W(), op, Received(result, data, plan))
      ensures ok ==> OnTime(old(W()), W(), op.id.slot, now)
    {
      ghost var before := W();
      CompletionIsFresh(before, op);
      inflight := inflight - multiset{op};
      ghost var gap, next := W(), OnReceived(setup, exchanges[op.id.slot], result, data, plan);
      ok := HandleReceived(op.id, result, data, plan, now);
      ReceivedSubmits(before, op, result, data, plan, next);
      if ok {
        ReceivedIsCompleted(before, gap, W(), op, result, data, plan, next);
      }
    }

    method CompleteConnect(op: Op, result: int, failures: nat, now: nat) returns (ok: bool)
      requires Sound(W()) && op in inflight && op.id.kind.ProxyConnect?
      modifies this`connections, this`exchanges, this`inflight
      ensures ok == CanSubmit(old(W()), op.id.slot, Connected(result, failures))
      ensures ok ==> Completed(old(W()), W(), op, Connected(result, failures))
      ensures ok ==> OnTime(old(W()), W(), op.id.slot, now)
    {
      ghost var before := W();
      CompletionIsFresh(before, op);
      inflight := inflight - multiset{op};
      ghost var gap, next := W(), OnConnected(setup, exchanges[op.id.slot], result, failures);
      ok := HandleProxyConnect(op.id, result, failures, now);
      ConnectedSubmits(before, op, result, failures, next);
      if ok {
        ConnectedIsCompleted(before, gap, W(), op, result, failures, next);
      }
    }

    method CompleteRequest(op: Op, result: int, now: nat) returns (ok: bool)
      requires Sound(W()) && op in inflight && op.id.kind.ProxyWrite?
      modifies this`connections, this`exchanges, this`inflight
      ensures ok == CanSubmit(old(W()), op.id.slot, RequestSent(result))
      ensures ok ==> Completed(old(W()), W(), op, RequestSent(result))
      ensures ok ==> OnTime(old(W()), W(), op.id.slot, now)
    {
      ghost var before := W();
      CompletionIsFresh(before, op);
      inflight := inflight - multiset{op};
      ghost var gap, next := W(), OnRequestSent(setup, exchanges[op.id.slot], result);
      ok := HandleProxyWrite(op.id, result, now);
      RequestSentSubmits(before, op, result, next);
      if ok {
        RequestSentIsCompleted(before, gap, W(), op, result, next);
      }
    }

    method CompleteResponse(op: Op, result: int, data: Bytes, now: nat) returns (ok: bool)
      requires Sound(W()) && op in inflight && op.id.kind.ProxyRead?
      requires result > 0 ==> |data| == result
      modifies this`connections, this`exchanges, this`inflight
      ensures ok == CanSubmit(old(W()), op.id.slot, Responded(result, data))
      ensures ok ==> Completed(old(W()), W(), op, Responded(result, data))
      ensures ok ==> OnTime(old(W()), W(), op.id.slot, now)
    {
      ghost var before := W();
      CompletionIsFresh(before, op);
      inflight := inflight - multiset{op};
      ghost var gap, next := W(), OnResponded(setup, exchanges[op.id.slot], result, data);
      ok := HandleResponse(op.id, result, data, now);
      RespondedSubmits(before, op, result, data, next);
      if ok {
        RespondedIsCompleted(before, gap, W(), op, result, data, next);
      }
    }

    /** A receive from the client has completed. The selected buffer goes back first, in every case. */
    method HandleReadCompletion(op: Op, result: int, bufferId: Option<nat>, plan: Plan, now: nat) returns (ok: bool)
      requires Sound(W()) && op in inflight && op.id.kind.Read?
      requires ring.Valid() && (bufferId.Some? ==> bufferId.value in ring.lent)
      modifies this`connections, this`exchanges, this`inflight, this`lookups
      modifies ring`tail, ring`published, ring`lent, ring.entries
      ensures ring.Valid() && ring.lent == old(ring.lent) - (if bufferId.Some? then {bufferId.value} else {})
      ensures var data := old(ring.Payload(result, bufferId));
              && ok == (data.Some? && CanSubmit(old(W()), op.id.slot, Received(result, data.value, plan)))
              && (ok ==> Completed(old(W()), W(), op, Received(result, data.value, plan)))
      ensures ok ==> OnTime(old(W()), W(), op.id.slot, now)
    {
      var received := TakeBuffer(result, bufferId);
      if received == None {
        return false;
      }
      assert W() == old(W());
      label taken:
      ok := CompleteRead(op, result, received.value, plan, now);
      assert unchanged@taken(ring, ring.entries);
    }

    method HandleProxyRead(op: Op, result: int, bufferId: Option<nat>, now: nat) returns (ok: bool)
      requires Sound(W()) && op in inflight && op.id.kind.ProxyRead?
      requires ring.Valid() && (bufferId.Some? ==> bufferId.value in ring.lent)
      modifies this`connections, this`exchanges, this`inflight
      modifies ring`tail, ring`published, ring`lent, ring.entries
      ensures ring.Valid() && ring.lent == old(ring.lent) - (if bufferId.Some? then {bufferId.value} else {})
      ensures var data := old(ring.Payload(result, bufferId));
              && ok == (data.Some? && CanSubmit(old(W()), op.id.slot, Responded(result, data.value)))
              && (ok ==> Completed(old(W()), W(), op, Responded(result, data.value)))
      ensures ok ==> OnTime(old(W()), W(), op.id.slot, now)
    {
      var received := TakeBuffer(result, bufferId);
      if received == None {
        return false;
      }
      assert W() == old(W());
      label taken:
      ok := CompleteResponse(op, result, received.value, now);
      assert unchanged@taken(ring, ring.entries);
    }

    /** A receive of either kind. */
    method HandleReceive(
        op: Op, result: int, bufferId: Option<nat>, plan: Plan, now: nat, ghost data: Bytes, ghost event: Event)
      returns (ok: bool)
      requires Sound(W()) && op in inflight && IsReceive(op)
      requires event == if op.id.kind.Read? then Received(result, data, plan) else Responded(result, data)
      requires ring.Valid() && (bufferId.Some? ==> bufferId.value in ring.lent)
        && ring.Payload(result, bufferId) == Some(data)
      modifies this`connections, this`exchanges, this`inflight, this`lookups
      modifies ring`tail, ring`published, ring`lent, ring.entries
      ensures ring.Valid() && ring.lent == old(ring.lent) - (if bufferId.Some? then {bufferId.value} else {})
      ensures ok == CanSubmit(old(W()), op.id.slot, event)
      ensures ok ==> Completed(old(W()), W(), op, event)
      ensures ok ==> OnTime(old(W()), W(), op.id.slot, now)
    {
      if op.id.kind.Read? {
        ok := HandleReadCompletion(op, result, bufferId, plan, now);
      } else {
        ok := HandleProxyRead(op, result, bufferId, now);
      }
    }

    // -------------------------------------------------------------- names

    /** The resolver has answered one lookup. */
    method HandleAnswer(l: Lookup, answer: Option<seq<Address>>, failures: nat, now: nat) returns (ok: bool)
      requires Sound(W()) && l in lookups
      modifies this`connections, this`exchanges, this`inflight, this`lookups
      ensures ok == (Wants(old(W()), l) ==> CanSubmit(old(W()), l.slot, Resolved(answer, failures)))
      ensures ok ==> Answered(old(W()), W(), l, answer, failures)
      ensures ok ==> OnTime(old(W()), W(), l.slot, now)
    {
      ghost var before := W();
      if l.slot in connections {
        CurrentHolds(l.slot);
      }
      lookups := lookups - {l};
      ghost var gap := W();
      ghost var next := if Wants(before, l) then OnResolved(setup, exchanges[l.slot], answer, failures) else START;
      ok := FinishResolution(l.slot, l.generation, answer, failures, now);
      if !Wants(before, l) {
        UnwantedIsAnswered(before, W(), l, answer, failures);
      } else {
        ResolvedSubmits(before, l, answer, failures, next);
        if ok {
          WantedIsAnswered(before, gap, W(), l, answer, failures, next);
        }
      }
    }

    lemma CurrentHolds(slot: nat)
      requires Sound(W()) && slot in connections
      ensures Holds(slot) && !exchanges[slot].stage.Closed?
    {
      assert Occupied(W(), slot) && SlotOk(W(), slot);
      SafeIsInOrder(setup, exchanges[slot]);
    }

    // -------------------------------------------------------------- the timer

    /** The slots that the timer picks for a sweep, in order. */
    predicate Picked(c: Connection, now: nat, chunks: bool) {
      if chunks then AwaitsChunk(c) else Overdue(c, timeouts, now)
    }

    method Pick(now: nat, chunks: bool) returns (slots: seq<nat>)
      requires forall slot | slot in connections :: slot < |generations|
      ensures NoDuplicates(slots)
      ensures forall slot :: slot in slots <==> slot in connections && Picked(connections[slot], now, chunks)
    {
      slots := [];
      for slot := 0 to |generations|
        invariant NoDuplicates(slots)
        invariant forall s :: s in slots <==> s < slot && s in connections && Picked(connections[s], now, chunks)
      {
        if slot in connections && Picked(connections[slot], now, chunks) {
          slots := slots + [slot];
        }
      }
    }

    /** The operation in flight is now too late; the kernel is asked to cancel it. */
    method MarkTimedOut(slot: nat)
      requires slot in connections && slot in exchanges && connections[slot].proxy.Some?
      modifies this`connections, this`exchanges
      ensures W() == Flagged(old(W()), slot)
    {
      var c := connections[slot];
      connections := connections[slot := c.WithProxy(c.proxy.value.(timedOut := true))];
      exchanges := exchanges[slot := exchanges[slot].(timedOut := true)];
    }

    /** A phase of a proxied connection has lasted too long: give up at once if nothing is in flight for it,
        otherwise mark it. */
    method ExpireProxy(slot: nat) returns (ok: bool)
      requires Sound(W()) && slot in connections && !connections[slot].writePending && connections[slot].proxy.Some?
      modifies this`connections, this`exchanges, this`inflight
      ensures ok == CanSubmit(old(W()), slot, Expired)
      ensures ok ==> Handled(old(W()), W(), slot, Expired) && Settles(old(W()), W())
    {
      ghost var before, e := W(), exchanges[slot];
      CurrentHolds(slot);
      var c := connections[slot];
      ProxyAwaits(c, e);
      if c.proxy.value.operationPending {
        MarkTimedOut(slot);
        FlaggedSubmits(before, slot);
        FlaggedIsHandled(before, W(), slot);
        ok := true;
      } else {
        ghost var next := FailUpstream(setup, e, TimedOut(c.proxy.value.phase));
        ok := FailProxy(slot, c.generation, TimedOut(c.proxy.value.phase), e);
        ExpiredSubmits(before, slot, next);
        if ok {
          ExpiredIsHandled(before, W(), slot, next);
        }
      }
      if ok {
        HandledSettles(before, W(), slot, Expired);
      }
    }

    method PumpStream(slot: nat, ready: bool) returns (ok: bool)
      requires Sound(W()) && slot in connections && AwaitsChunk(connections[slot])
      modifies this`connections, this`exchanges, this`inflight
      ensures ok == CanSubmit(old(W()), slot, Pumped(ready))
      ensures ok ==> Handled(old(W()), W(), slot, Pumped(ready)) && Settles(old(W()), W())
    {
      ghost var before, e := W(), exchanges[slot];
      CurrentHolds(slot);
      StreamAwaits(connections[slot], e);
      ghost var next := NextChunk(e, connections[slot].staticStream.value, ready);
      ok := AdvanceStaticStream(slot, connections[slot].generation, ready, e);
      PumpedSubmits(before, slot, ready, next);
      if ok {
        PumpedIsHandled(before, W(), slot, ready, next);
        HandledSettles(before, W(), slot, Pumped(ready));
      }
    }

    method SweepOne(slot: nat, now: nat, chunks: bool, ready: set<nat>) returns (ok: bool)
      requires Sound(W()) && slot in connections && Picked(connections[slot], now, chunks)
      modifies this`connections, this`exchanges, this`inflight
      ensures ok == CanSubmit(old(W()), slot, SweepEvent(if chunks then Chunks(ready) else Timeouts, slot))
      ensures ok ==> Settles(old(W()), W()) && lookups == old(lookups)
      ensures ok ==> Handled(old(W()), W(), slot, SweepEvent(if chunks then Chunks(ready) else Timeouts, slot))
    {
      if chunks {
        ok := PumpStream(slot, slot in ready);
      } else {
        ok := ExpireProxy(slot);
      }
    }

    /** One pass over the connections that the timer picks: exactly those take their step. */
    method SweepConnections(now: nat, chunks: bool, ready: set<nat>) returns (ok: bool, slots: seq<nat>)
      requires Sound(W())
      modifies this`connections, this`exchanges, this`inflight
      ensures forall slot :: slot in slots <==> slot in old(connections) && Picked(old(connections)[slot], now, chunks)
      ensures ok ==> Sweeping(old(W()), W(), slots, |slots|, if chunks then Chunks(ready) else Timeouts)
      ensures !ok ==> SweepIsStuck(old(W()), slots, if chunks then Chunks(ready) else Timeouts)
    {
      ghost var start, sweep := W(), if chunks then Chunks(ready) else Timeouts;
      RecordsAreInRange(start);
      slots := Pick(now, chunks);
      SweepBegins(start, slots, sweep);
      for i := 0 to |slots|
        invariant Sweeping(start, W(), slots, i, sweep)
      {
        ghost var before := W();
        assert slots[i] in start.connections;
        NextInSweep(start, before, slots, i, sweep);
        ok := SweepOne(slots[i], now, chunks, ready);
        if !ok {
          StuckFromStart(start, before, slots, i, sweep);
          return;
        }
        SweepAdvances(start, before, W(), slots, i, sweep, SweepEvent(sweep, slots[i]));
      }
      ok := true;
    }

    // -------------------------------------------------------------- accepting

    method InsertConnection(slot: nat, listenerIndex: nat) returns (generation: nat)
      requires slot <= |generations| == |occupations|
      modifies this`connections, this`exchanges, this`generations, this`occupations
      ensures slot in connections && connections[slot].generation == generation
      ensures generation ==
        NextGeneration(URING_MODULUS, if slot == |old(generations)| then 0 else old(generations)[slot])
      ensures connections[slot] == Connection(generation, listenerIndex, false, "", None, "", 0, false, None, None)
      ensures W() == Inserted(old(W()), slot, connections[slot])
    {
      if |generations| <= slot {
        generations := generations + [0];
        occupations := occupations + [0];
      }
      generation := NextGeneration(URING_MODULUS, generations[slot]);
      generations := generations[slot := generation];
      occupations := occupations[slot := occupations[slot] + 1];
      connections := connections[slot := Connection(generation, listenerIndex, false, "", None, "", 0, false, None,
        None)];
      exchanges := exchanges[slot := START];
    }

    method InsertAndReceive(slot: nat, listenerIndex: nat)
      requires slot <= |generations| == |occupations|
      modifies this`connections, this`exchanges, this`generations, this`occupations, this`inflight
      ensures Arrives(old(W()), W(), slot)
    {
      var generation := InsertConnection(slot, listenerIndex);
      ghost var c, gap, e := connections[slot], W(), START;
      var ok := SubmitRecv(slot, generation, e);
      assert Newcomer(old(W()), slot, c) && Opens(old(W()), gap, slot, c, e) && Lands(gap, W(), slot, e);
    }

    /** An accepted connection is kept, in the next occupation of a vacant slot, unless there are too many. */
    method RetainConnection(listenerIndex: nat, choice: nat) returns (kept: bool)
      requires Sound(W()) && |connections| <= maxConnections
      modifies this`connections, this`exchanges, this`generations, this`occupations, this`inflight
      ensures |connections| <= maxConnections
      ensures kept == HasRoom(old(W()), maxConnections, choice)
      ensures Admitted(old(W()), W(), kept, choice)
    {
      ghost var before := W();
      var slot := VacantSlot(connections, generations, choice);
      if |connections| >= maxConnections || slot > U32_MAX {
        return false;
      }
      RecordsAreInRange(before);
      InsertAndReceive(slot, listenerIndex);
      ArrivalIsRetained(before, W(), slot);
      return true;
    }

    method Admit(wanted: bool, listenerIndex: nat, choice: nat)
      requires Sound(W()) && |connections| <= maxConnections
      modifies this`connections, this`exchanges, this`generations, this`occupations, this`inflight
      ensures |connections| <= maxConnections
      ensures Admitted(old(W()), W(), wanted && HasRoom(old(W()), maxConnections, choice), choice)
    {
      if wanted {
        var kept := RetainConnection(listenerIndex, choice);
      }
    }
  }
}
