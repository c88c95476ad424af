/** The io_uring worker's connection records (connection.rs), the operations the kernel owns, and what it means for
    the records, the pending flags and those operations to agree with the protocol of each connection. */
module UringState {
  import opened Common
  import opened Http
  import opened Exchange
  import opened Identifiers

  /** The upstream half of a proxied connection. */
  datatype Proxy = Proxy(
    hasSocket: bool,
    address: Option<Address>,
    addresses: seq<Address>,
    requestBuffer: Bytes,
    requestOffset: nat,
    responseStarted: bool,
    phase: Phase,
    progressAt: nat,
    operationPending: bool,
    timedOut: bool)
  {
    function Transition(phase: Phase, now: nat): Proxy { this.(phase := phase, progressAt := now, timedOut := false) }
  }

  /** A connection record of the slab. */
  datatype Connection = Connection(
    generation: nat,
    listenerIndex: nat,
    readPending: bool,
    requestBuffer: Bytes,
    pendingRequest: Option<Pending>,
    writeBuffer: Bytes,
    writeOffset: nat,
    writePending: bool,
    proxy: Option<Proxy>,
    staticStream: Option<Stream>)
  {
    function QueueResponse(response: Bytes): Connection { this.(writeBuffer := response, writeOffset := 0) }

    function WithProxy(p: Proxy): Connection { this.(proxy := Some(p)) }
  }

  /** The memory an operation points at: none, a buffer from an offset on, or a socket address. */
  datatype View = NoMemory | Window(buffer: Bytes, offset: nat) | Peer(address: Address)

  /** A submitted operation whose completion has not been handled, issued for one occupation of a slot. */
  datatype Op = Op(id: OperationId, occupation: nat, view: View)

  /** A name lookup handed to the resolver threads. */
  datatype Lookup = Lookup(slot: nat, generation: nat, occupation: nat)

  datatype World = World(
    setup: Setup,
    connections: map<nat, Connection>,
    exchanges: map<nat, Exchange>,
    generations: seq<nat>,
    occupations: seq<nat>,
    inflight: multiset<Op>,
    lookups: set<Lookup>)

  /** Clocks do not run backwards in a duration. */
  function Elapsed(since: nat, now: nat): nat { if now < since then 0 else now - since }

  /** The upstream half has made no progress for as long as its phase allows. */
  predicate Overdue(c: Connection, timeouts: Phase -> nat, now: nat) {
    && !c.writePending && c.proxy.Some? && !c.proxy.value.timedOut
    && Elapsed(c.proxy.value.progressAt, now) >= timeouts(c.proxy.value.phase)
  }

  /** The upstream half is where it was: same phase, same bytes sent and to be sent, same addresses left. */
  predicate SamePoint(c: Connection, d: Connection)
    requires c.proxy.Some? && d.proxy.Some?
  {
    && d.proxy.value.phase == c.proxy.value.phase && d.proxy.value.requestOffset == c.proxy.value.requestOffset
    && d.proxy.value.addresses == c.proxy.value.addresses && d.writeBuffer == c.writeBuffer
  }

  /** Nothing has moved in the upstream half, its last progress included. */
  predicate Unmoved(c: Connection, d: Connection) {
    d.proxy.Some? ==>
      c.proxy.Some? && SamePoint(c, d) && d.proxy.value.progressAt == c.proxy.value.progressAt
  }

  /** The last progress of the upstream half is when it last moved. */
  predicate Timed(c: Connection, d: Connection, now: nat) {
    d.proxy.Some? ==>
      d.proxy.value.progressAt == if c.proxy.Some? && SamePoint(c, d) then c.proxy.value.progressAt else now
  }

  ghost predicate OnTime(before: World, after: World, slot: nat, now: nat) {
    slot in before.connections && slot in after.connections ==>
      Timed(before.connections[slot], after.connections[slot], now)
  }

  predicate AwaitsChunk(c: Connection) { c.staticStream.Some? && !c.writePending && c.writeBuffer == "" }

  /** The slab's choice of a vacant slot: one used before, or the next one. */
  function VacantSlot(connections: map<nat, Connection>, generations: seq<nat>, choice: nat): nat {
    if choice in connections || choice > |generations| then |generations| else choice
  }

  // ---------------------------------------------------------------- what 32 bits can say

  const U32_MAX: nat := 0xFFFF_FFFF

  /** The operation that a connection waits for next can be submitted: what is left to send fits its length field. */
  predicate Submittable(e: Exchange) {
    && (IsSending(e.stage) && e.sent <= |e.out| ==> |e.out| - e.sent <= U32_MAX)
    && (e.stage.Requesting? && e.requestSent <= |e.request| ==> |e.request| - e.requestSent <= U32_MAX)
  }

  // ---------------------------------------------------------------- one connection

  ghost predicate ProxyRepresents(p: Proxy, e: Exchange) {
    && p.requestBuffer == e.request && p.requestOffset == e.requestSent
    && p.responseStarted == (e.log.fromUpstream != "")
    && p.timedOut == e.timedOut
    && p.operationPending == UpstreamPending(e.stage)
    && p.phase == (match e.stage
                   case Resolving => ResolvingPhase
                   case Connecting(_, _) => ConnectingPhase
                   case Requesting => WritingRequest
                   case _ => ReadingResponse)
    && (e.stage.Connecting? ==> p.address == Some(e.stage.address) && p.addresses == e.stage.rest)
    && (!e.stage.Resolving? ==> p.hasSocket)
  }

  predicate HasProxy(stage: Stage) {
    stage.Resolving? || stage.Connecting? || stage.Requesting? || stage.Responding? || stage.Relaying?
  }

  /** The record of a connection, flags included, encodes its stage. */
  ghost predicate Represents(c: Connection, e: Exchange) {
    && c.writeBuffer == e.out && c.writeOffset == e.sent
    && c.readPending == e.stage.Reading?
    && c.writePending == IsSending(e.stage)
    && c.proxy.Some? == HasProxy(e.stage)
    && (c.proxy.Some? ==> ProxyRepresents(c.proxy.value, e))
    && c.staticStream == (match e.stage
                          case Streaming(stream) => Some(stream)
                          case AwaitingChunk(stream) => Some(stream)
                          case _ => None)
    && (e.stage.Reading? ==> c.requestBuffer == e.stage.buffer && c.pendingRequest == e.stage.pending)
  }

  /** The one operation a connection is waiting for, if its stage waits for one. */
  ghost function Awaited(slot: nat, generation: nat, occupation: nat, e: Exchange): Option<Op> {
    match e.stage
    case Reading(_, _) => Some(Op(OperationId(slot, generation, Read), occupation, NoMemory))
    case Replying => Some(Op(OperationId(slot, generation, Write), occupation, Window(e.out, e.sent)))
    case Streaming(_) => Some(Op(OperationId(slot, generation, Write), occupation, Window(e.out, e.sent)))
    case Relaying => Some(Op(OperationId(slot, generation, Write), occupation, Window(e.out, e.sent)))
    case Connecting(address, _) => Some(Op(OperationId(slot, generation, ProxyConnect), occupation, Peer(address)))
    case Requesting => Some(Op(OperationId(slot, generation, ProxyWrite), occupation, Window(e.request, e.requestSent)))
    case Responding => Some(Op(OperationId(slot, generation, ProxyRead), occupation, NoMemory))
    case _ => None
  }

  ghost function Launched(slot: nat, generation: nat, occupation: nat, e: Exchange): multiset<Op> {
    match Awaited(slot, generation, occupation, e)
    case None => multiset{}
    case Some(op) => multiset{op}
  }

  // ---------------------------------------------------------------- the whole worker

  /** A slot's occupant belongs to the slot's current occupation. */
  ghost predicate Placed(w: World, slot: nat) {
    && slot in w.connections && slot in w.exchanges
    && slot < |w.generations| == |w.occupations| && w.occupations[slot] > 0
    && w.connections[slot].generation == w.generations[slot]
  }

  /** It is moreover in a safe, open state. */
  ghost predicate Occupied(w: World, slot: nat) {
    && Placed(w, slot)
    && if w.exchanges[slot].stage.Closed? then false else Safe(w.setup, w.exchanges[slot])
  }

  ghost function AwaitedAt(w: World, slot: nat): Option<Op>
    requires Placed(w, slot)
  {
    Awaited(slot, w.generations[slot], w.occupations[slot], w.exchanges[slot])
  }

  ghost predicate Numbered(w: World) {
    && |w.generations| == |w.occupations|
    && (forall i | 0 <= i < |w.generations| :: w.generations[i] == GenerationAt(URING_MODULUS, w.occupations[i]))
    && (forall l | l in w.lookups ::
          && l.slot < |w.occupations| && 0 < l.occupation <= w.occupations[l.slot]
          && l.generation == GenerationAt(URING_MODULUS, l.occupation))
  }

  /** Everything the kernel may still report belongs to a live connection that is waiting for exactly that. */
  ghost predicate KernelOk(w: World, gap: Option<nat>) {
    forall op | op in w.inflight :: gap != Some(op.id.slot) && OpOk(w, op)
  }

  ghost predicate OpOk(w: World, op: Op) {
    Occupied(w, op.id.slot) && AwaitedAt(w, op.id.slot) == Some(op) && w.inflight[op] == 1
  }

  ghost predicate SlotOk(w: World, slot: nat)
    requires Placed(w, slot)
  {
    && Represents(w.connections[slot], w.exchanges[slot])
    && (AwaitedAt(w, slot).Some? ==> AwaitedAt(w, slot).value in w.inflight)
    && (w.exchanges[slot].stage.Resolving? ==> Lookup(slot, w.generations[slot], w.occupations[slot]) in w.lookups)
  }

  /** The invariant of the worker. `gap` is the slot whose completion is being handled, if any: it has no operation
      in flight and its record is being changed. */
  ghost predicate Consistent(w: World, gap: Option<nat>) {
    match gap
    case None =>
      && w.connections.Keys == w.exchanges.Keys && Numbered(w) && KernelOk(w, None)
      && (forall slot | slot in w.connections :: Occupied(w, slot) && SlotOk(w, slot))
    case Some(busy) =>
      && w.connections.Keys == w.exchanges.Keys && Numbered(w) && KernelOk(w, gap)
      && (forall slot | slot in w.connections :: Occupied(w, slot) && (slot != busy ==> SlotOk(w, slot)))
  }

  /** The world with one connection replaced. */
  ghost function Put(w: World, slot: nat, c: Connection, e: Exchange): World {
    w.(connections := w.connections[slot := c], exchanges := w.exchanges[slot := e])
  }

  ghost function Without(w: World, slot: nat): World {
    w.(connections := w.connections - {slot}, exchanges := w.exchanges - {slot})
  }

  /** The world after a handler has stored the record `c` for the stage of `e` and submitted its operation. */
  ghost function Landing(w: World, slot: nat, c: Connection, e: Exchange): World
    requires Placed(w, slot)
  {
    Put(w, slot, c, e).(
      inflight := w.inflight + Launched(slot, w.generations[slot], w.occupations[slot], e),
      lookups := w.lookups
        + (if e.stage.Resolving? then {Lookup(slot, w.generations[slot], w.occupations[slot])} else {}))
  }

  /** After a completion: the record encodes the next stage and exactly its operation has been submitted. */
  ghost predicate Lands(before: World, after: World, slot: nat, e: Exchange) {
    && Placed(before, slot) && slot in after.connections
    && Represents(after.connections[slot], e)
    && after.connections[slot].generation == before.connections[slot].generation
    && after == Landing(before, slot, after.connections[slot], e)
  }

  lemma OccupiedElsewhere(before: World, after: World, slot: nat, other: nat)
    requires other != slot && Occupied(before, other)
    requires after.setup == before.setup && after.generations == before.generations
      && after.occupations == before.occupations
    requires other in after.connections && other in after.exchanges
    requires after.connections[other] == before.connections[other] && after.exchanges[other] == before.exchanges[other]
    ensures Occupied(after, other) && AwaitedAt(after, other) == AwaitedAt(before, other)
  {
  }

  lemma LandedSlot(before: World, after: World, slot: nat, e: Exchange)
    requires Lands(before, after, slot, e) && Safe(before.setup, e) && !e.stage.Closed?
    ensures Occupied(after, slot) && SlotOk(after, slot)
    ensures AwaitedAt(after, slot) == Awaited(slot, before.generations[slot], before.occupations[slot], e)
    ensures after.inflight == before.inflight + Launched(slot, before.generations[slot], before.occupations[slot], e)
  {
  }

  lemma LandedElsewhere(before: World, after: World, slot: nat, e: Exchange, other: nat)
    requires Lands(before, after, slot, e) && other != slot && Occupied(before, other)
    ensures Occupied(after, other) && AwaitedAt(after, other) == AwaitedAt(before, other)
    ensures SlotOk(before, other) ==> SlotOk(after, other)
  {
  }

  lemma LandedKernel(before: World, after: World, slot: nat, e: Exchange, op: Op)
    requires Lands(before, after, slot, e) && Safe(before.setup, e) && !e.stage.Closed?
    requires KernelOk(before, Some(slot)) && op in after.inflight
    ensures OpOk(after, op)
  {
    LandedSlot(before, after, slot, e);
    if op in before.inflight {
      LandedElsewhere(before, after, slot, e, op.id.slot);
    }
  }

  lemma LandedShape(before: World, after: World, slot: nat, e: Exchange)
    requires Lands(before, after, slot, e) && Numbered(before) && before.connections.Keys == before.exchanges.Keys
    ensures Numbered(after) && after.connections.Keys == after.exchanges.Keys == before.connections.Keys
  {
  }

  /** Landing closes the gap. */
  lemma LandingIsConsistent(before: World, after: World, slot: nat, e: Exchange)
    requires Consistent(before, Some(slot)) && Lands(before, after, slot, e) && Safe(before.setup, e)
      && !e.stage.Closed?
    ensures Consistent(after, None)
  {
    LandedShape(before, after, slot, e);
    LandedSlot(before, after, slot, e);
    forall other | other in after.connections ensures Occupied(after, other) && SlotOk(after, other) {
      if other != slot {
        assert Occupied(before, other) && SlotOk(before, other);
        LandedElsewhere(before, after, slot, e, other);
      }
    }
    forall op | op in after.inflight ensures OpOk(after, op) {
      LandedKernel(before, after, slot, e, op);
    }
    assert KernelOk(after, None);
  }

  /** So does removing the connection. */
  lemma RemovalIsConsistent(before: World, after: World, slot: nat)
    requires Consistent(before, Some(slot)) && after == Without(before, slot)
    ensures Consistent(after, None)
  {
    forall other | other in after.connections ensures Occupied(after, other) && SlotOk(after, other) {
      assert Occupied(before, other) && SlotOk(before, other);
      OccupiedElsewhere(before, after, slot, other);
    }
    forall op | op in after.inflight ensures OpOk(after, op) {
      assert OpOk(before, op) && op.id.slot != slot;
      OccupiedElsewhere(before, after, slot, op.id.slot);
    }
  }

  /** What a handler does to the world: its connection takes a protocol step to `e`, or is gone if that closes it. */
  ghost predicate Moves(before: World, after: World, slot: nat, e: Exchange) {
    if e.stage.Closed? then after == Without(before, slot) else Lands(before, after, slot, e)
  }

  lemma PutTwice(m: map<nat, Connection>, slot: nat, a: Connection, b: Connection)
    ensures m[slot := a][slot := b] == m[slot := b]
  {
  }

  /** A handler may store the record before it hands over to another. */
  lemma StoreThenMove(before: World, c: Connection, after: World, slot: nat, e: Exchange)
    requires Placed(before, slot) && c.generation == before.connections[slot].generation
    requires Moves(before.(connections := before.connections[slot := c]), after, slot, e)
    ensures Moves(before, after, slot, e)
  {
    if e.stage.Closed? {
      assert before.connections[slot := c] - {slot} == before.connections - {slot};
    } else {
      PutTwice(before.connections, slot, c, after.connections[slot]);
    }
  }

  lemma MovingIsConsistent(before: World, after: World, slot: nat, e: Exchange)
    requires Consistent(before, Some(slot)) && Moves(before, after, slot, e) && Safe(before.setup, e)
    ensures Consistent(after, None)
  {
    if e.stage.Closed? {
      RemovalIsConsistent(before, after, slot);
    } else {
      LandingIsConsistent(before, after, slot, e);
    }
  }

  /** What the kernel and the resolver owe is not part of a connection. */
  lemma SameOccupant(before: World, after: World, slot: nat)
    requires after == before.(inflight := after.inflight, lookups := after.lookups) && Occupied(before, slot)
    ensures Occupied(after, slot) && AwaitedAt(after, slot) == AwaitedAt(before, slot)
    ensures Represents(before.connections[slot], before.exchanges[slot]) ==>
      Represents(after.connections[slot], after.exchanges[slot])
  {
  }

  lemma CompletedElsewhere(before: World, after: World, op: Op, other: nat)
    requires OpOk(before, op) && Occupied(before, other) && SlotOk(before, other)
    requires after == before.(inflight := before.inflight - multiset{op})
    ensures Occupied(after, other) && AwaitedAt(after, other) == AwaitedAt(before, other)
    ensures other != op.id.slot ==> SlotOk(after, other)
  {
    SameOccupant(before, after, other);
    if other != op.id.slot && AwaitedAt(before, other).Some? {
      assert AwaitedAt(before, other).value != op;
    }
  }

  lemma StillInFlight(before: World, after: World, op: Op, o: Op)
    requires Consistent(before, None) && op in before.inflight && o in after.inflight
    requires after == before.(inflight := before.inflight - multiset{op})
    ensures OpOk(after, o) && o.id.slot != op.id.slot
  {
    assert o in before.inflight && OpOk(before, op) && OpOk(before, o);
    assert o != op;
    SameOccupant(before, after, o.id.slot);
  }

  lemma SlotIsOk(w: World, slot: nat)
    requires Consistent(w, None) && slot in w.connections
    ensures Occupied(w, slot) && SlotOk(w, slot)
  {
  }

  lemma TheAwaitedOperation(w: World, op: Op)
    requires Consistent(w, None) && op in w.inflight
    ensures OpOk(w, op) && SlotOk(w, op.id.slot)
  {
  }

  /** Taking a completion out of the ring opens the gap. */
  lemma CompletionOpensGap(before: World, after: World, op: Op)
    requires Consistent(before, None) && op in before.inflight
    requires after == before.(inflight := before.inflight - multiset{op})
    ensures Consistent(after, Some(op.id.slot))
  {
    forall other | other in after.connections
      ensures Occupied(after, other) && (other != op.id.slot ==> SlotOk(after, other))
    {
      assert OpOk(before, op) && Occupied(before, other) && SlotOk(before, other);
      CompletedElsewhere(before, after, op, other);
    }
    forall o | o in after.inflight ensures OpOk(after, o) && o.id.slot != op.id.slot {
      StillInFlight(before, after, op, o);
    }
  }

  /** A connection that waits for no operation (for a name, or for a file chunk) can be handled at any time. */
  lemma IdleOpensGap(w: World, slot: nat)
    requires Consistent(w, None) && slot in w.connections && AwaitedAt(w, slot).None?
    ensures Consistent(w, Some(slot))
    ensures Represents(w.connections[slot], w.exchanges[slot])
  {
    assert SlotOk(w, slot);
    forall op | op in w.inflight ensures op.id.slot != slot {
      assert OpOk(w, op);
    }
  }

  /** The connection that a lookup's identifier names is still waiting for a name. */
  ghost predicate Wants(w: World, l: Lookup) {
    && l.slot in w.connections && l.slot in w.exchanges
    && w.connections[l.slot].generation == l.generation && w.exchanges[l.slot].stage.Resolving?
  }

  lemma AnsweredSlot(w: World, l: Lookup, slot: nat)
    requires Occupied(w, slot)
    ensures var after := w.(lookups := w.lookups - {l});
            && Occupied(after, slot)
            && (SlotOk(w, slot) && !(slot == l.slot && Wants(w, l)) ==> SlotOk(after, slot))
  {
    SameOccupant(w, w.(lookups := w.lookups - {l}), slot);
  }

  /** An answered lookup is no longer outstanding; a connection that was waiting for it is handled next. */
  lemma AnswerTaken(w: World, l: Lookup, gap: Option<nat>)
    requires Consistent(w, gap)
    requires Wants(w, l) ==> gap == Some(l.slot)
    ensures Consistent(w.(lookups := w.lookups - {l}), gap)
  {
    var after := w.(lookups := w.lookups - {l});
    forall slot | slot in after.connections
      ensures Occupied(after, slot) && (gap != Some(slot) ==> SlotOk(after, slot))
    {
      assert Occupied(w, slot) && (gap != Some(slot) ==> SlotOk(w, slot));
      AnsweredSlot(w, l, slot);
    }
    forall op | op in after.inflight ensures gap != Some(op.id.slot) && OpOk(after, op) {
      assert OpOk(w, op);
      SameOccupant(w, after, op.id.slot);
    }
  }

  /** The world with the upstream half of one connection marked as timed out. */
  ghost function Flagged(w: World, slot: nat): World
    requires slot in w.connections && slot in w.exchanges && w.connections[slot].proxy.Some?
  {
    var c := w.connections[slot];
    Put(w, slot, c.WithProxy(c.proxy.value.(timedOut := true)), w.exchanges[slot].(timedOut := true))
  }

  /** A mark on the upstream half of a record, and in the protocol state it encodes, is all that changes. */
  lemma FlaggedRepresents(c: Connection, e: Exchange)
    requires Represents(c, e) && UpstreamPending(e.stage)
    ensures c.proxy.Some? && Represents(c.WithProxy(c.proxy.value.(timedOut := true)), e.(timedOut := true))
  {
  }

  lemma FlaggedSlot(w: World, slot: nat)
    requires Occupied(w, slot) && SlotOk(w, slot) && UpstreamPending(w.exchanges[slot].stage)
    ensures w.connections[slot].proxy.Some?
    ensures Occupied(Flagged(w, slot), slot) && SlotOk(Flagged(w, slot), slot)
    ensures AwaitedAt(Flagged(w, slot), slot) == AwaitedAt(w, slot)
  {
    FlaggedRepresents(w.connections[slot], w.exchanges[slot]);
    FlaggedIsSafe(w.setup, w.exchanges[slot]);
    FlaggedPlace(w, slot);
    assert Represents(Flagged(w, slot).connections[slot], Flagged(w, slot).exchanges[slot]);
  }

  lemma FlaggedPlace(w: World, slot: nat)
    requires Placed(w, slot) && w.connections[slot].proxy.Some?
    ensures Placed(Flagged(w, slot), slot) && AwaitedAt(Flagged(w, slot), slot) == AwaitedAt(w, slot)
  {
  }

  lemma FlaggedIsSafe(setup: Setup, e: Exchange)
    requires Safe(setup, e) && UpstreamPending(e.stage)
    ensures Safe(setup, e.(timedOut := true))
  {
    OnExpiredIsSafe(setup, e);
  }

  lemma FlaggedElsewhere(w: World, slot: nat, other: nat)
    requires slot in w.connections && slot in w.exchanges && w.connections[slot].proxy.Some?
    requires other != slot && Occupied(w, other)
    ensures Occupied(Flagged(w, slot), other) && AwaitedAt(Flagged(w, slot), other) == AwaitedAt(w, other)
    ensures SlotOk(w, other) ==> SlotOk(Flagged(w, slot), other)
  {
    OccupiedElsewhere(w, Flagged(w, slot), slot, other);
  }

  lemma FlaggedShape(w: World, slot: nat)
    requires slot in w.connections && slot in w.exchanges && w.connections[slot].proxy.Some?
    requires Numbered(w) && w.connections.Keys == w.exchanges.Keys
    ensures var after := Flagged(w, slot);
            Numbered(after) && after.connections.Keys == after.exchanges.Keys == w.connections.Keys
              && after.inflight == w.inflight
  {
  }

  lemma FlaggedOp(w: World, slot: nat, op: Op)
    requires Occupied(w, slot) && SlotOk(w, slot) && UpstreamPending(w.exchanges[slot].stage)
    requires OpOk(w, op)
    ensures w.connections[slot].proxy.Some? && OpOk(Flagged(w, slot), op)
  {
    FlaggedSlot(w, slot);
    if op.id.slot != slot {
      FlaggedElsewhere(w, slot, op.id.slot);
    }
  }

  /** The upstream operation of a connection has timed out; it stays in flight. */
  lemma FlaggingIsConsistent(w: World, slot: nat)
    requires Consistent(w, None) && slot in w.connections && UpstreamPending(w.exchanges[slot].stage)
    ensures w.connections[slot].proxy.Some? && Consistent(Flagged(w, slot), None)
  {
    assert Occupied(w, slot) && SlotOk(w, slot);
    FlaggedSlot(w, slot);
    FlaggedShape(w, slot);
    var after := Flagged(w, slot);
    forall other | other in after.connections ensures Occupied(after, other) && SlotOk(after, other) {
      if other != slot {
        assert Occupied(w, other) && SlotOk(w, other);
        FlaggedElsewhere(w, slot, other);
      }
    }
    forall op | op in after.inflight ensures OpOk(after, op) {
      FlaggedOp(w, slot, op);
    }
  }

  /** The slot counters with one more occupation of `slot`, which may be the first slot never used. */
  ghost function Bumped(counts: seq<nat>, slot: nat, next: nat): seq<nat>
    requires slot <= |counts|
  {
    if slot == |counts| then counts + [next] else counts[slot := next]
  }

  /** A new connection starts the slot's next occupation, waiting for its first submission. */
  ghost function Inserted(w: World, slot: nat, c: Connection): World
    requires slot <= |w.generations| == |w.occupations|
  {
    var k := if slot == |w.occupations| then 1 else w.occupations[slot] + 1;
    Put(w, slot, c, START).(
      generations := Bumped(w.generations, slot, c.generation),
      occupations := Bumped(w.occupations, slot, k))
  }

  lemma InsertionKeepsNumbers(w: World, slot: nat, c: Connection)
    requires Numbered(w) && slot <= |w.generations|
    requires c.generation == NextGeneration(URING_MODULUS, if slot == |w.generations| then 0 else w.generations[slot])
    ensures Numbered(Inserted(w, slot, c))
  {
  }

  lemma InsertedElsewhere(w: World, slot: nat, c: Connection, other: nat)
    requires Occupied(w, other) && other != slot && slot <= |w.generations| == |w.occupations|
    ensures Occupied(Inserted(w, slot, c), other)
    ensures AwaitedAt(Inserted(w, slot, c), other) == AwaitedAt(w, other)
    ensures SlotOk(w, other) ==> SlotOk(Inserted(w, slot, c), other)
  {
  }

  lemma InsertedSlot(w: World, slot: nat, c: Connection)
    requires slot <= |w.generations| == |w.occupations|
    ensures Occupied(Inserted(w, slot, c), slot)
  {
    StartIsSafe(w.setup);
  }

  lemma InsertedShape(w: World, slot: nat, c: Connection)
    requires slot <= |w.generations| == |w.occupations| && w.connections.Keys == w.exchanges.Keys
    ensures var after := Inserted(w, slot, c);
            after.connections.Keys == after.exchanges.Keys == w.connections.Keys + {slot}
              && after.inflight == w.inflight
  {
  }

  lemma InsertionOpensGap(w: World, slot: nat, c: Connection)
    requires Consistent(w, None) && slot !in w.connections && slot <= |w.generations|
    requires c.generation == NextGeneration(URING_MODULUS, if slot == |w.generations| then 0 else w.generations[slot])
    ensures Consistent(Inserted(w, slot, c), Some(slot))
  {
    var after := Inserted(w, slot, c);
    InsertedShape(w, slot, c);
    InsertionKeepsNumbers(w, slot, c);
    InsertedSlot(w, slot, c);
    forall other | other in after.connections ensures Occupied(after, other)
      && (other != slot ==> SlotOk(after, other)) {
      if other != slot {
        assert Occupied(w, other) && SlotOk(w, other);
        InsertedElsewhere(w, slot, c, other);
      }
    }
    forall op | op in after.inflight ensures slot != op.id.slot && OpOk(after, op) {
      InsertedOp(w, slot, c, op);
    }
  }

  lemma InsertedOp(w: World, slot: nat, c: Connection, op: Op)
    requires OpOk(w, op) && slot !in w.connections && slot <= |w.generations| == |w.occupations|
    ensures slot != op.id.slot && OpOk(Inserted(w, slot, c), op)
  {
    InsertedElsewhere(w, slot, c, op.id.slot);
  }

  // ---------------------------------------------------------------- what the invariant says

  /** The flags of a record that waits for the given operation, or for none. */
  ghost predicate FlagsSay(c: Connection, awaited: Option<Op>) {
    match awaited
    case Some(op) =>
      && (c.readPending == op.id.kind.Read?) && (c.writePending == op.id.kind.Write?)
      && ((c.proxy.Some? && c.proxy.value.operationPending) ==
          (op.id.kind.ProxyConnect? || op.id.kind.ProxyWrite? || op.id.kind.ProxyRead?))
    case None =>
      && !c.readPending && !c.writePending
      && (if c.proxy.Some? then c.proxy.value.phase == ResolvingPhase && !c.proxy.value.operationPending
          else c.staticStream.Some? && c.writeBuffer == "")
  }

  /** One wake-up source each: in every consistent state a live connection has exactly one operation in flight, or a
      lookup outstanding, or is a file response waiting for its next chunk with nothing left to send; the pending
      flags say which. */
  ghost predicate OneWakeUp(w: World, slot: nat)
    requires Placed(w, slot)
  {
    var awaited := AwaitedAt(w, slot);
    && (forall op | op in w.inflight && op.id.slot == slot :: awaited == Some(op) && w.inflight[op] == 1)
    && (awaited.Some? ==> awaited.value in w.inflight && awaited.value.id.slot == slot)
    && FlagsSay(w.connections[slot], awaited)
    && (awaited.None? && w.connections[slot].proxy.Some? ==>
          Lookup(slot, w.generations[slot], w.occupations[slot]) in w.lookups)
  }

  lemma FlagsAgree(c: Connection, e: Exchange, slot: nat, generation: nat, occupation: nat)
    requires Represents(c, e) && !e.stage.Closed? && InOrder(e)
    ensures FlagsSay(c, Awaited(slot, generation, occupation, e))
  {
  }

  lemma EveryConnectionIsAwaited(w: World, slot: nat)
    requires Consistent(w, None) && slot in w.connections
    ensures OneWakeUp(w, slot)
  {
    assert Occupied(w, slot) && SlotOk(w, slot);
    FlagsAgree(w.connections[slot], w.exchanges[slot], slot, w.generations[slot], w.occupations[slot]);
    forall op | op in w.inflight && op.id.slot == slot ensures AwaitedAt(w, slot) == Some(op) && w.inflight[op] == 1 {
      assert OpOk(w, op);
    }
  }

  /** What the kernel holds: the memory an operation in flight points at is the live connection's own buffer at its
      current offset (or its address), and the kind of an upstream operation is the proxy's phase. */
  ghost predicate MemoryHeld(w: World, op: Op) {
    && op.id.slot in w.connections
    && var c := w.connections[op.id.slot];
       && c.generation == op.id.generation
       && op.id.slot < |w.occupations| && w.occupations[op.id.slot] == op.occupation
       && match op.id.kind
          case Write => op.view == Window(c.writeBuffer, c.writeOffset) && c.writeOffset < |c.writeBuffer|
          case ProxyConnect => c.proxy.Some? && c.proxy.value.address.Some?
            && op.view == Peer(c.proxy.value.address.value) && c.proxy.value.phase == ConnectingPhase
          case ProxyWrite => c.proxy.Some?
            && op.view == Window(c.proxy.value.requestBuffer, c.proxy.value.requestOffset)
              && c.proxy.value.phase == WritingRequest
          case ProxyRead => c.proxy.Some? && c.proxy.value.hasSocket && c.proxy.value.phase == ReadingResponse
          case _ => op.view == NoMemory
  }

  lemma InFlightMemoryIsHeld(w: World, op: Op)
    requires Consistent(w, None) && op in w.inflight
    ensures MemoryHeld(w, op)
  {
    assert Occupied(w, op.id.slot) && SlotOk(w, op.id.slot);
  }

  /** A completion is never stale, and a name is accepted only for the occupation that asked for it, as long as the
      slot has been reoccupied fewer than 65535 times since. */
  lemma LookupNamesItsOccupation(w: World, l: Lookup)
    requires Consistent(w, None) && l in w.lookups
    requires l.slot in w.connections && w.connections[l.slot].generation == l.generation
    requires w.occupations[l.slot] - l.occupation < URING_MODULUS - 1
    ensures l.occupation == w.occupations[l.slot]
  {
    assert Occupied(w, l.slot);
    SameGeneration(URING_MODULUS, l.occupation, w.occupations[l.slot]);
  }
}
