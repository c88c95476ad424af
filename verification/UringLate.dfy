/** A run of the io_uring worker that ends with an answer of the resolver going to a connection that never asked: the
    first connection of a slot asks for a name and gives up; 65534 others come and go; the next one asks for a name, in
    the 65536th occupation of the slot, and takes the answer to the first. */
module UringLate {
  import opened Common
  import opened Http
  import opened Exchange
  import opened Identifiers
  import opened UringState
  import opened UringProgress
  import opened UringTurns
  import opened UringWorker
  import opened UringLoop

  // ---------------------------------------------------------------- what the states of the run are

  /** One listener at least, with its multishot accept, and names are read. */
  ghost predicate Steady(c: Controls) {
    && !c.requested && !c.shuttingDown && c.namesArmed && c.listeners != []
      && c.listeners[0] == Listener(Multishot, true)
    && 0 in c.accepts && c.accepts[0] == Multishot
  }

  ghost predicate Orderly(m: Moment) { exists w :: w == m.world && Sound(w) && Steady(m.controls) }

  /** Slot 0 has had `k` occupations, and is vacant; these lookups, and maybe others, are outstanding. */
  ghost predicate Nobody(m: Moment, k: nat, names: set<Lookup>) {
    && Orderly(m) && m.filled == map[]
    && m.world.occupations == (if k == 0 then [] else [k]) && m.world.exchanges == map[] && names <= m.world.lookups
  }

  /** Slot 0 is in its k-th occupation, by the only connection. */
  ghost predicate Somebody(m: Moment, k: nat, e: Exchange, names: set<Lookup>) {
    && Orderly(m) && |m.world.generations| == 1
    && m.world.occupations == [k] && m.world.exchanges == map[0 := e] && names <= m.world.lookups
  }

  /** The operation it waits for is in flight. */
  lemma ItsOperation(m: Moment, k: nat, e: Exchange, names: set<Lookup>, op: Op)
    requires Somebody(m, k, e, names) && Awaited(0, m.world.generations[0], k, e) == Some(op)
    ensures op in m.world.inflight && InOrder(e)
  {
    LoneRecord(m.world, e);
    SlotIsOk(m.world, 0);
  }

  lemma ItsRecord(m: Moment, k: nat, e: Exchange, names: set<Lookup>)
    requires Somebody(m, k, e, names)
    ensures 0 in m.world.connections && Represents(m.world.connections[0], e) && InOrder(e)
    ensures m.world.connections.Keys == {0}
  {
    LoneRecord(m.world, e);
  }

  lemma LoneRecord(w: World, e: Exchange)
    requires Sound(w) && w.exchanges == map[0 := e]
    ensures 0 in w.connections && Represents(w.connections[0], e) && InOrder(e) && w.connections.Keys == {0}
  {
    RecordsAreInRange(w);
    assert 0 in w.connections;
    SlotIsOk(w, 0);
    SafeIsInOrder(w.setup, e);
  }

  // ---------------------------------------------------------------- what its turns do

  const ARRIVAL: Happening := AcceptDone(0, 0, true, 0)

  lemma SteadyAccept(c: Controls)
    requires Steady(c)
    ensures NextControls(c, ARRIVAL) == c && AcceptPossible(c, 0, 0, true)
  {
    assert c.listeners[0 := c.listeners[0]] == c.listeners;
  }

  lemma SomebodyArrives(m: Moment, after: Moment, limits: Limits, k: nat, names: set<Lookup>)
    requires Nobody(m, k, names) && limits.maxConnections > 0 && TurnTaken(m, after, limits, ARRIVAL)
    ensures Houses(after, k + 1, Guests(Some(START)), names)
  {
    SteadyAccept(m.controls);
    NobodyConnected(m.world);
    assert HasRoom(m.world, limits.maxConnections, 0) && VacantSlot(m.world.connections, m.world.generations, 0) == 0;
    FirstOfSlot(m.world, after.world, k, START);
  }

  lemma NobodyConnected(w: World)
    requires Consistent(w, None) && w.exchanges == map[]
    ensures w.connections == map[]
  {
    assert w.connections.Keys == {};
  }

  lemma FirstOfSlot(before: World, after: World, k: nat, e: Exchange)
    requires after.exchanges == before.exchanges[0 := e] && before.exchanges == map[]
    requires before.occupations == (if k == 0 then [] else [k])
    requires after.occupations == Bumped(before.occupations, 0, NextOccupation(before, 0))
    ensures after.exchanges == map[0 := e] && after.occupations == [k + 1]
  {
  }

  /** What one turn without listeners and shutdown comes to. */
  lemma TurnParts(m: Moment, after: Moment, limits: Limits, h: Happening)
    requires TurnTaken(m, after, limits, h) && (h.OperationDone? || h.TimerExpired? || h.BufferFilled?)
    ensures after.controls == m.controls
    ensures h.OperationDone? ==> OperationTaken(m.world, after.world, m.filled, h)
    ensures h.TimerExpired? ==>
              TickTaken(m.world, after.world, limits.timeouts, h.now, h.deliverable) && after.filled == m.filled
    ensures h.BufferFilled? ==> after.world == m.world
    ensures h.BufferFilled? && CanFill(m.world.inflight, m.filled, h.op, h.data, limits) ==>
              BufferTaken(m.world.inflight, m.filled, after.filled, h.op, h.data)
  {
  }

  /** An operation of the connection is done: it takes the protocol's step. */
  lemma SomethingIsDone(
      m: Moment, after: Moment, limits: Limits, k: nat, e: Exchange, names: set<Lookup>, h: Happening, event: Event)
    requires Somebody(m, k, e, names) && h.OperationDone? && h.op in m.world.inflight && InOrder(e)
    requires ResultPossible(m.filled, h.op, h.result)
    requires event == EventDone(m.filled, h.op, h.result, h.plan, h.ready, h.failures)
    requires TurnTaken(m, after, limits, h) && after.filled == map[]
    ensures var next := Step(m.world.setup, e, event);
            && after.world.setup == m.world.setup
            && if next.stage.Closed? then Nobody(after, k, names)
               else Somebody(after, k, next, names)
  {
    TurnParts(m, after, limits, h);
    DoneInWorld(m.world, after.world, h.op, e, event);
  }

  lemma DoneInWorld(before: World, after: World, op: Op, e: Exchange, event: Event)
    requires Sound(before) && before.exchanges == map[0 := e] && InOrder(e)
    requires op in before.inflight && Completed(before, after, op, event)
    ensures var next := Step(before.setup, e, event);
            && after.exchanges == (if next.stage.Closed? then map[] else map[0 := next])
            && before.lookups <= after.lookups && after.generations == before.generations
    ensures Sound(after) && after.setup == before.setup && after.occupations == before.occupations
  {
    CompletionIsFresh(before, op);
    HandledMeans(before, after, op.id.slot, event);
    BecameNext(before, after, e, Step(before.setup, e, event));
  }

  lemma BecameNext(before: World, after: World, e: Exchange, next: Exchange)
    requires before.exchanges == map[0 := e] && Becomes(before, after, 0, next)
    ensures after.exchanges == if next.stage.Closed? then map[] else map[0 := next]
  {
  }

  lemma SomethingIsReceived(
      m: Moment, after: Moment, limits: Limits, k: nat, e: Exchange, names: set<Lookup>, op: Op, data: Bytes)
    requires Somebody(m, k, e, names) && m.filled == map[] && CanFill(m.world.inflight, m.filled, op, data, limits)
    requires TurnTaken(m, after, limits, BufferFilled(op, data))
    ensures Somebody(after, k, e, names) && after.world == m.world
    ensures op in after.filled && after.filled[op].data == data && after.filled - {op} == map[]
  {
    TurnParts(m, after, limits, BufferFilled(op, data));
  }

  /** The connection has waited for its name too long. */
  lemma NameIsOverdue(m: Moment, after: Moment, limits: Limits, k: nat, e: Exchange, names: set<Lookup>, now: nat)
    requires Somebody(m, k, e, names) && e.stage.Resolving? && m.filled == map[]
    requires 0 in m.world.connections && Overdue(m.world.connections[0], limits.timeouts, now)
    requires TurnTaken(m, after, limits, TimerExpired(now, {}))
    ensures InOrder(e) && Somebody(after, k, Step(m.world.setup, e, Expired), names)
    ensures after.filled == map[] && after.world.setup == m.world.setup
  {
    TurnParts(m, after, limits, TimerExpired(now, {}));
    LoneRecord(m.world, e);
    OverdueWorld(m.world, after.world, limits, e, now);
  }

  lemma OverdueWorld(before: World, after: World, limits: Limits, e: Exchange, now: nat)
    requires Sound(before) && before.exchanges == map[0 := e] && InOrder(e) && e.stage.Resolving?
    requires 0 in before.connections && Overdue(before.connections[0], limits.timeouts, now)
    requires TickTaken(before, after, limits.timeouts, now, {})
    ensures after.exchanges == map[0 := Step(before.setup, e, Expired)] && Sound(after)
    ensures after.lookups == before.lookups && after.setup == before.setup && after.occupations == before.occupations
    ensures |after.generations| == |after.occupations|
  {
    var next := Step(before.setup, e, Expired);
    GivesUp(before.setup, e);
    var between, expired, pumped :| TickSteps(before, between, after, expired, pumped, limits.timeouts, now, {});
    assert 0 in expired;
    AfterTimeout(before, between, expired, e, next);
    LoneRecord(between, next);
    NothingToPump(between.connections[0], next);
    assert 0 !in pumped;
    AfterPump(between, after, pumped, next);
  }

  lemma GivesUp(setup: Setup, e: Exchange)
    requires InOrder(e) && e.stage.Resolving?
    ensures Step(setup, e, Expired) == Reply(e, setup.render(TimedOut(ResolvingPhase)))
  {
  }

  lemma NothingToPump(c: Connection, e: Exchange)
    requires Represents(c, e) && e.stage.Replying?
    ensures !AwaitsChunk(c)
  {
  }

  lemma OnlyThisOne(exchanges: map<nat, Exchange>, e: Exchange)
    requires exchanges.Keys <= {0} && 0 in exchanges && exchanges[0] == e
    ensures exchanges == map[0 := e]
  {
  }

  lemma AfterTimeout(before: World, between: World, expired: seq<nat>, e: Exchange, next: Exchange)
    requires before.exchanges == map[0 := e] && InOrder(e) && next == Step(before.setup, e, Expired)
    requires Sweeping(before, between, expired, |expired|, Timeouts) && 0 in expired && !next.stage.Closed?
    ensures between.exchanges == map[0 := next] && between.lookups == before.lookups && between.setup == before.setup
    ensures between.occupations == before.occupations && Sound(between)
  {
    SweepMeans(before, between, expired, Timeouts, 0);
    OnlyThisOne(between.exchanges, next);
  }

  lemma AfterPump(between: World, after: World, pumped: seq<nat>, next: Exchange)
    requires between.exchanges == map[0 := next] && Sweeping(between, after, pumped, |pumped|, Chunks({}))
    requires 0 !in pumped
    ensures after.exchanges == map[0 := next] && after.lookups == between.lookups && after.setup == between.setup
    ensures after.occupations == between.occupations && Sound(after)
  {
    SweepMeans(between, after, pumped, Chunks({}), 0);
    OnlyThisOne(after.exchanges, next);
  }

  /** The answer to one lookup. */
  lemma AnswerIsTaken(
      m: Moment, after: Moment, limits: Limits, k: nat, e: Exchange, names: set<Lookup>, a: Answer, now: nat)
    requires Somebody(m, k, e, names) && e.stage.Resolving? && TurnTaken(m, after, limits, NamesResolved([a], now))
    requires a.lookup in names && Wants(m.world, a.lookup)
    ensures Handled(m.world, after.world, 0, Resolved(a.addresses, a.failures))
  {
    OneAnswer(m.world, after.world, a, now);
  }

  lemma OneAnswer(before: World, after: World, a: Answer, now: nat)
    requires AnswersTaken(before, after, [a], now)
    ensures OneAnswerTaken(before, after, a, now)
  {
    var middle :| AnswersTaken(before, middle, [a][..0], now) && OneAnswerTaken(middle, after, [a][0], now);
    assert [a][..0] == [];
  }

  // ---------------------------------------------------------------- the run

  /** The bytes are a whole request, and it can be forwarded to the URL. */
  ghost predicate Forwardable(setup: Setup, bytes: Bytes, url: Bytes) {
    bytes != "" && match Whole(setup.maxRead, bytes)
                   case Ready(head, body) =>
                     (match setup.forward(url, head, body)
                      case Some(request) => |request| <= setup.maxRead
                      case None => false)
                   case _ => false
  }

  /** The event makes the connection `e` go on as `next`, or leave. */
  ghost predicate Turns(setup: Setup, e: Exchange, event: Event, next: Option<Exchange>) {
    exists after :: TurnsInto(setup, e, event, after) && next == Left(after)
  }

  ghost predicate TurnsInto(setup: Setup, e: Exchange, event: Event, after: Exchange) {
    InOrder(e) && after == Step(setup, e, event)
  }

  ghost function Left(e: Exchange): Option<Exchange> { if e.stage.Closed? then None else Some(e) }

  /** A new connection whose request arrives, to be forwarded, waits for a name as `e`. */
  ghost predicate Asks(setup: Setup, bytes: Bytes, url: Bytes, e: Exchange) {
    && Turns(setup, START, Received(|bytes|, bytes, Forward(url, true)), Some(e))
    && e.stage.Resolving? && !e.timedOut && InOrder(e)
  }

  lemma ForwardableAsks(setup: Setup, bytes: Bytes, url: Bytes) returns (e: Exchange)
    requires Forwardable(setup, bytes, url)
    ensures Asks(setup, bytes, url, e)
  {
    StartIsSafe(setup);
    SafeIsInOrder(setup, START);
    var event := Received(|bytes|, bytes, Forward(url, true));
    e := Step(setup, START, event);
    StepIsSafe(setup, START, event);
    SafeIsInOrder(setup, e);
    assert TurnsInto(setup, START, event, e);
  }

  /** Slot 0 in its k-th occupation, which may be over; nothing received is left to handle. */
  ghost predicate Stands(m: Moment, k: nat, who: Option<Exchange>, names: set<Lookup>) {
    exists guests :: Houses(m, k, guests, names) && guests == Guests(who)
  }

  ghost function Guests(who: Option<Exchange>): map<nat, Exchange> { if who.None? then map[] else map[0 := who.value] }

  ghost predicate Houses(m: Moment, k: nat, guests: map<nat, Exchange>, names: set<Lookup>) {
    && Orderly(m) && m.filled == map[]
    && m.world.occupations == (if k == 0 then [] else [k]) && m.world.exchanges == guests && names <= m.world.lookups
    && (guests != map[] ==> k > 0 && |m.world.generations| == 1)
  }

  lemma NobodyStands(m: Moment, k: nat, names: set<Lookup>)
    requires Nobody(m, k, names)
    ensures Stands(m, k, None, names)
  {
    assert Houses(m, k, Guests(None), names);
  }

  lemma StandsNobody(m: Moment, k: nat, names: set<Lookup>)
    requires Stands(m, k, None, names)
    ensures Nobody(m, k, names)
  {
  }

  lemma SomebodyStands(m: Moment, k: nat, e: Exchange, names: set<Lookup>)
    requires k > 0 && Somebody(m, k, e, names) && m.filled == map[]
    ensures Stands(m, k, Some(e), names)
  {
    assert Houses(m, k, Guests(Some(e)), names);
  }

  lemma StandsSomebody(m: Moment, k: nat, e: Exchange, names: set<Lookup>)
    requires Stands(m, k, Some(e), names)
    ensures k > 0 && Somebody(m, k, e, names) && m.filled == map[]
  {
    assert 0 in Guests(Some(e));
  }

  /** A run has come to this state, from which no turn fails. */
  ghost predicate ReachedBy(loop: EventLoop, first: Moment, script: seq<Happening>)
    reads loop.control, loop.received, loop.worker, loop.worker.ring, loop.worker.ring.entries
  {
    loop.Valid() && Comfortable(loop.worker.W()) && Ran(first, loop.Now(), loop.Limits(), script)
  }

  ghost predicate Reached(loop: EventLoop, first: Moment)
    reads loop.control, loop.received, loop.worker, loop.worker.ring, loop.worker.ring.entries
  {
    exists script :: ReachedBy(loop, first, script)
  }

  ghost predicate Underway(loop: EventLoop, first: Moment, k: nat, who: Option<Exchange>, names: set<Lookup>)
    reads loop.control, loop.received, loop.worker, loop.worker.ring, loop.worker.ring.entries
  {
    Reached(loop, first) && Stands(loop.Now(), k, who, names)
  }

  /** One turn of a run. */
  method TakeTurn(loop: EventLoop, h: Happening, ghost first: Moment)
    requires Reached(loop, first) && Fits(h) && !h.LoopTop?
    modifies loop.control, loop.received, loop.worker, loop.worker.ring, loop.worker.ring.entries
    ensures Reached(loop, first) && TurnTaken(old(loop.Now()), loop.Now(), loop.Limits(), h)
  {
    ghost var before := loop.Now();
    ghost var script :| ReachedBy(loop, first, script);
    var outcome := loop.Turn(h);
    OneMoreTurn(first, before, loop.Now(), loop.Limits(), script, h);
    assert ReachedBy(loop, first, script + [h]);
  }

  /** The receive that the k-th connection of slot 0 begins with. */
  function ReadOp(generation: nat, k: nat): Op { Op(OperationId(0, generation, Read), k, NoMemory) }

  /** An operation that ends without anything. */
  function Nothing(op: Op): Happening { OperationDone(op, 0, NoListener, false, 0, 0) }

  lemma NoneFilledAfter(m: Moment, after: Moment, limits: Limits, h: Happening)
    requires TurnTaken(m, after, limits, h) && h.OperationDone? && h.op in m.world.inflight
    requires ResultPossible(m.filled, h.op, h.result) && m.filled - {h.op} == map[]
    ensures after.filled == map[]
  {
  }

  lemma GoesAway(setup: Setup, op: Op)
    requires op.id.kind.Read?
    ensures Turns(setup, START, EventOf(op.id.kind, 0, "", NoListener, false, 0), None)
  {
    StartIsSafe(setup);
    SafeIsInOrder(setup, START);
    var event := EventOf(op.id.kind, 0, "", NoListener, false, 0);
    assert TurnsInto(setup, START, event, Step(setup, START, event));
  }

  /** A connection comes. */
  method Arrive(loop: EventLoop, ghost k: nat, ghost names: set<Lookup>, ghost first: Moment)
    requires Underway(loop, first, k, None, names) && loop.worker.maxConnections > 0
    modifies loop.control, loop.received, loop.worker, loop.worker.ring, loop.worker.ring.entries
    ensures Underway(loop, first, k + 1, Some(START), names)
  {
    ghost var vacant := loop.Now();
    TakeTurn(loop, ARRIVAL, first);
    ArrivalStands(vacant, loop.Now(), loop.Limits(), k, names);
  }

  lemma ArrivalStands(m: Moment, after: Moment, limits: Limits, k: nat, names: set<Lookup>)
    requires Stands(m, k, None, names) && limits.maxConnections > 0 && TurnTaken(m, after, limits, ARRIVAL)
    ensures Stands(after, k + 1, Some(START), names)
  {
    StandsNobody(m, k, names);
    SomebodyArrives(m, after, limits, k, names);
  }

  lemma HasGeneration(loop: EventLoop, first: Moment, k: nat, e: Exchange, names: set<Lookup>)
    requires Underway(loop, first, k, Some(e), names)
    ensures |loop.worker.generations| == 1
  {
    StandsSomebody(loop.Now(), k, e, names);
  }

  lemma DoneStands(
      m: Moment, after: Moment, limits: Limits, k: nat, e: Exchange, names: set<Lookup>, h: Happening, event: Event,
      next: Option<Exchange>)
    requires k > 0 && Somebody(m, k, e, names) && h.OperationDone? && h.op in m.world.inflight && InOrder(e)
    requires ResultPossible(m.filled, h.op, h.result) && m.filled - {h.op} == map[]
    requires event == EventDone(m.filled, h.op, h.result, h.plan, h.ready, h.failures)
    requires TurnTaken(m, after, limits, h) && Turns(m.world.setup, e, event, next)
    ensures Stands(after, k, next, names)
  {
    NoneFilledAfter(m, after, limits, h);
    SomethingIsDone(m, after, limits, k, e, names, h, event);
    NextStands(after, k, Step(m.world.setup, e, event), names);
  }

  lemma NextStands(m: Moment, k: nat, next: Exchange, names: set<Lookup>)
    requires k > 0 && m.filled == map[]
    requires if next.stage.Closed? then Nobody(m, k, names) else Somebody(m, k, next, names)
    ensures Stands(m, k, Left(next), names)
  {
    if next.stage.Closed? {
      NobodyStands(m, k, names);
    } else {
      SomebodyStands(m, k, next, names);
    }
  }

  /** An operation comes back without anything. */
  method Finish(
      loop: EventLoop, op: Op, ghost k: nat, ghost e: Exchange, ghost next: Option<Exchange>, ghost names: set<Lookup>,
      ghost first: Moment)
    requires Underway(loop, first, k, Some(e), names)
    requires Turns(loop.worker.setup, e, EventOf(op.id.kind, 0, "", NoListener, false, 0), next)
    requires loop.worker.generations != [] && Awaited(0, loop.worker.generations[0], k, e) == Some(op)
    modifies loop.control, loop.received, loop.worker, loop.worker.ring, loop.worker.ring.entries
    ensures Underway(loop, first, k, next, names)
  {
    ghost var before := loop.Now();
    TakeTurn(loop, Nothing(op), first);
    FinishStands(before, loop.Now(), loop.Limits(), k, e, next, names, op);
  }

  lemma FinishStands(
      m: Moment, after: Moment, limits: Limits, k: nat, e: Exchange, next: Option<Exchange>, names: set<Lookup>, op: Op)
    requires Stands(m, k, Some(e), names) && TurnTaken(m, after, limits, Nothing(op))
    requires Turns(m.world.setup, e, EventOf(op.id.kind, 0, "", NoListener, false, 0), next)
    requires m.world.generations != [] && Awaited(0, m.world.generations[0], k, e) == Some(op)
    ensures Stands(after, k, next, names)
  {
    StandsSomebody(m, k, e, names);
    ItsOperation(m, k, e, names, op);
    assert m.filled - {op} == map[];
    DoneStands(m, after, limits, k, e, names, Nothing(op), EventOf(op.id.kind, 0, "", NoListener, false, 0), next);
  }

  /** A connection comes and goes. */
  method ComeAndGo(loop: EventLoop, k: nat, ghost names: set<Lookup>, ghost first: Moment)
    requires Underway(loop, first, k, None, names) && loop.worker.maxConnections > 0
    modifies loop.control, loop.received, loop.worker, loop.worker.ring, loop.worker.ring.entries
    ensures Underway(loop, first, k + 1, None, names)
  {
    Arrive(loop, k, names, first);
    HasGeneration(loop, first, k + 1, START, names);
    var op := ReadOp(loop.worker.generations[0], k + 1);
    GoesAway(loop.worker.setup, op);
    Finish(loop, op, k + 1, START, None, names, first);
  }

  /** The kernel has the bytes of a request for it, and it is to be forwarded. */
  method Receive(
      loop: EventLoop, bytes: Bytes, url: Bytes, k: nat, ghost e: Exchange, ghost names: set<Lookup>,
      ghost first: Moment)
    requires Underway(loop, first, k, Some(START), names) && loop.worker.ring.Size() > 0
    requires 0 < |bytes| <= loop.worker.ring.bufferLen && Asks(loop.worker.setup, bytes, url, e)
    modifies loop.control, loop.received, loop.worker, loop.worker.ring, loop.worker.ring.entries
    ensures Underway(loop, first, k, Some(e), names)
  {
    HasGeneration(loop, first, k, START, names);
    var op := ReadOp(loop.worker.generations[0], k);
    Fill(loop, op, bytes, k, names, first);
    TakeRequest(loop, op, bytes, url, k, e, names, first);
  }

  /** It is connected, has asked for nothing yet, and these bytes have been received for it. */
  ghost predicate HasReceived(m: Moment, k: nat, names: set<Lookup>, op: Op, bytes: Bytes) {
    exists data :: data == bytes && Holding(m, k, names, op, data)
  }

  ghost predicate Holding(m: Moment, k: nat, names: set<Lookup>, op: Op, data: Bytes) {
    && k > 0 && Somebody(m, k, START, names) && op in m.world.inflight && IsReceive(op) && op.id.kind.Read?
    && op in m.filled && m.filled[op].data == data && m.filled - {op} == map[]
  }

  lemma FillStands(m: Moment, after: Moment, limits: Limits, k: nat, names: set<Lookup>, op: Op, bytes: Bytes)
    requires Stands(m, k, Some(START), names) && TurnTaken(m, after, limits, BufferFilled(op, bytes))
    requires 0 < |bytes| <= limits.bufferLen && limits.buffers > 0
    requires m.world.generations != [] && op == ReadOp(m.world.generations[0], k)
    ensures HasReceived(after, k, names, op, bytes)
  {
    StandsSomebody(m, k, START, names);
    ItsOperation(m, k, START, names, op);
    SomethingIsReceived(m, after, limits, k, START, names, op, bytes);
    assert Holding(after, k, names, op, bytes);
  }

  /** The kernel puts them into a buffer. */
  method Fill(loop: EventLoop, op: Op, bytes: Bytes, ghost k: nat, ghost names: set<Lookup>, ghost first: Moment)
    requires Underway(loop, first, k, Some(START), names) && loop.worker.ring.Size() > 0
    requires 0 < |bytes| <= loop.worker.ring.bufferLen
    requires loop.worker.generations != [] && op == ReadOp(loop.worker.generations[0], k)
    modifies loop.control, loop.received, loop.worker, loop.worker.ring, loop.worker.ring.entries
    ensures Reached(loop, first) && HasReceived(loop.Now(), k, names, op, bytes)
  {
    ghost var before := loop.Now();
    TakeTurn(loop, BufferFilled(op, bytes), first);
    FillStands(before, loop.Now(), loop.Limits(), k, names, op, bytes);
  }

  lemma RequestStands(
      m: Moment, after: Moment, limits: Limits, k: nat, e: Exchange, names: set<Lookup>, op: Op, bytes: Bytes,
      url: Bytes)
    requires HasReceived(m, k, names, op, bytes) && Asks(m.world.setup, bytes, url, e)
    requires TurnTaken(m, after, limits, OperationDone(op, 0, Forward(url, true), false, 0, 0))
    ensures Stands(after, k, Some(e), names)
  {
    LoneRecord(m.world, START);
    DoneStands(m, after, limits, k, START, names, OperationDone(op, 0, Forward(url, true), false, 0, 0),
      Received(|bytes|, bytes, Forward(url, true)), Some(e));
  }

  /** The worker takes the request. */
  method TakeRequest(
      loop: EventLoop, op: Op, bytes: Bytes, url: Bytes, ghost k: nat, ghost e: Exchange, ghost names: set<Lookup>,
      ghost first: Moment)
    requires Reached(loop, first) && HasReceived(loop.Now(), k, names, op, bytes)
    requires Asks(loop.worker.setup, bytes, url, e)
    modifies loop.control, loop.received, loop.worker, loop.worker.ring, loop.worker.ring.entries
    ensures Underway(loop, first, k, Some(e), names)
  {
    ghost var before := loop.Now();
    TakeTurn(loop, OperationDone(op, 0, Forward(url, true), false, 0, 0), first);
    RequestStands(before, loop.Now(), loop.Limits(), k, e, names, op, bytes, url);
  }

  /** A connection comes and asks for a name. */
  method Ask(
      loop: EventLoop, k: nat, bytes: Bytes, url: Bytes, ghost e: Exchange, ghost names: set<Lookup>,
      ghost first: Moment)
    requires Underway(loop, first, k, None, names) && loop.worker.maxConnections > 0 && loop.worker.ring.Size() > 0
    requires 0 < |bytes| <= loop.worker.ring.bufferLen && Asks(loop.worker.setup, bytes, url, e)
    modifies loop.control, loop.received, loop.worker, loop.worker.ring, loop.worker.ring.entries
    ensures Underway(loop, first, k + 1, Some(e), names)
  {
    Arrive(loop, k, names, first);
    Receive(loop, bytes, url, k + 1, e, names, first);
  }

  lemma WaitsForName(c: Connection, e: Exchange, timeouts: Phase -> nat)
    requires Represents(c, e) && e.stage.Resolving? && !e.timedOut
    ensures c.proxy.Some? && Overdue(c, timeouts, c.proxy.value.progressAt + timeouts(ResolvingPhase))
  {
  }

  /** The timer ends its waiting. */
  method Tick(loop: EventLoop, ghost k: nat, ghost e: Exchange, ghost names: set<Lookup>, ghost first: Moment)
    requires Underway(loop, first, k, Some(e), names) && e.stage.Resolving? && !e.timedOut
    modifies loop.control, loop.received, loop.worker, loop.worker.ring, loop.worker.ring.entries
    ensures Underway(loop, first, k, Some(Reply(e, loop.worker.setup.render(TimedOut(ResolvingPhase)))), names)
  {
    ghost var before := loop.Now();
    StandsSomebody(before, k, e, names);
    ItsRecord(before, k, e, names);
    WaitsForName(loop.worker.connections[0], e, loop.worker.timeouts);
    var now := loop.worker.connections[0].proxy.value.progressAt + loop.worker.timeouts(ResolvingPhase);
    TakeTurn(loop, TimerExpired(now, {}), first);
    NameIsOverdue(before, loop.Now(), loop.Limits(), k, e, names, now);
    GivesUp(loop.worker.setup, e);
    SomebodyStands(loop.Now(), k, Reply(e, loop.worker.setup.render(TimedOut(ResolvingPhase))), names);
  }

  /** It waits in vain, and does not even get the notice. */
  method GiveUp(loop: EventLoop, k: nat, ghost e: Exchange, ghost names: set<Lookup>, ghost first: Moment)
    requires Underway(loop, first, k, Some(e), names) && InOrder(e) && e.stage.Resolving? && !e.timedOut
    modifies loop.control, loop.received, loop.worker, loop.worker.ring, loop.worker.ring.entries
    ensures Underway(loop, first, k, None, names)
  {
    Tick(loop, k, e, names, first);
    var notice := loop.worker.setup.render(TimedOut(ResolvingPhase));
    HasGeneration(loop, first, k, Reply(e, notice), names);
    var op := Op(OperationId(0, loop.worker.generations[0], Write), k, Window(notice, 0));
    HangsUp(loop.worker.setup, op, Reply(e, notice));
    Finish(loop, op, k, Reply(e, notice), None, names, first);
  }

  lemma HangsUp(setup: Setup, op: Op, e: Exchange)
    requires e.stage.Replying? && e.sent < |e.out| && e.requestSent <= |e.request| && !e.timedOut && op.id.kind.Write?
    ensures Turns(setup, e, EventOf(op.id.kind, 0, "", NoListener, false, 0), None)
  {
    var event := EventOf(op.id.kind, 0, "", NoListener, false, 0);
    assert TurnsInto(setup, e, event, Step(setup, e, event));
  }

  lemma BeginsQuietly(loop: EventLoop)
    requires loop.Valid() && loop.worker.W() == World(loop.worker.setup, map[], map[], [], [], multiset{}, {})
    requires Modest(loop.worker.setup) && loop.received.filled == map[] && Steady(loop.control.K())
    ensures Underway(loop, loop.Now(), 0, None, {})
  {
    assert ReachedBy(loop, loop.Now(), []);
    NobodyStands(loop.Now(), 0, {});
  }

  const FIRST_NAME: Lookup := Lookup(0, 1, 1)

  lemma FirstName(m: Moment, k: nat, e: Exchange, names: set<Lookup>)
    requires k == 1 && Somebody(m, k, e, names) && e.stage.Resolving?
    ensures FIRST_NAME in m.world.lookups
  {
    LoneRecord(m.world, e);
    SlotIsOk(m.world, 0);
    FirstNumberRecurs();
  }

  lemma FirstNameStands(m: Moment, k: nat, e: Exchange, none: set<Lookup>, names: set<Lookup>)
    requires k == 1 && Stands(m, k, Some(e), none) && e.stage.Resolving? && names == {FIRST_NAME}
    ensures Stands(m, k, Some(e), names)
  {
    StandsSomebody(m, k, e, none);
    FirstName(m, k, e, none);
    SomebodyStands(m, k, e, names);
  }

  /** The first connection's question. */
  lemma FirstNameIsAsked(
      loop: EventLoop, first: Moment, k: nat, e: Exchange, none: set<Lookup>, names: set<Lookup>)
    requires k == 1 && Underway(loop, first, k, Some(e), none) && e.stage.Resolving? && names == {FIRST_NAME}
    ensures Underway(loop, first, k, Some(e), names)
  {
    FirstNameStands(loop.Now(), k, e, none, names);
  }

  /** The first connection asks, and is gone. */
  method FirstVisit(
      loop: EventLoop, bytes: Bytes, url: Bytes, k: nat, ghost e: Exchange, ghost none: set<Lookup>,
      ghost names: set<Lookup>, ghost first: Moment)
    requires k == 0 && Underway(loop, first, k, None, none) && Asks(loop.worker.setup, bytes, url, e)
    requires loop.worker.maxConnections > 0 && loop.worker.ring.Size() > 0
    requires 0 < |bytes| <= loop.worker.ring.bufferLen && names == {FIRST_NAME}
    modifies loop.control, loop.received, loop.worker, loop.worker.ring, loop.worker.ring.entries
    ensures Underway(loop, first, k + 1, None, names)
  {
    Ask(loop, k, bytes, url, e, none, first);
    FirstNameIsAsked(loop, first, k + 1, e, none, names);
    GiveUp(loop, k + 1, e, names, first);
  }

  /** The run up to the answer: the connection of the last occupation waits for a name, and the first one's question has
      not been answered either. */
  method LateRun(
      loop: EventLoop, bytes: Bytes, url: Bytes, k: nat, last: nat, ghost e: Exchange, ghost none: set<Lookup>,
      ghost names: set<Lookup>, ghost first: Moment)
    requires k == 0 && last >= 1 && Underway(loop, first, k, None, none) && Asks(loop.worker.setup, bytes, url, e)
    requires loop.worker.maxConnections > 0 && loop.worker.ring.Size() > 0
    requires 0 < |bytes| <= loop.worker.ring.bufferLen && names == {FIRST_NAME}
    modifies loop.control, loop.received, loop.worker, loop.worker.ring, loop.worker.ring.entries
    ensures Underway(loop, first, last + 1, Some(e), names)
  {
    FirstVisit(loop, bytes, url, k, e, none, names, first);
    PassBy(loop, k + 1, last, names, first);
    Ask(loop, last, bytes, url, e, names, first);
  }

  /** Connections come and go, until the slot has been occupied so many times. */
  method {:tailrecursion} PassBy(
      loop: EventLoop, start: nat, last: nat, ghost names: set<Lookup>, ghost first: Moment)
    requires start <= last && Underway(loop, first, start, None, names) && loop.worker.maxConnections > 0
    modifies loop.control, loop.received, loop.worker, loop.worker.ring, loop.worker.ring.entries
    ensures Underway(loop, first, last, None, names)
    decreases last - start
  {
    if start == last {
      SameCount(loop, first, start, last, names);
    } else {
      ComeAndGo(loop, start, names, first);
      PassBy(loop, start + 1, last, names, first);
    }
  }

  lemma SameCount(loop: EventLoop, first: Moment, a: nat, b: nat, names: set<Lookup>)
    requires a == b && Underway(loop, first, a, None, names)
    ensures Underway(loop, first, b, None, names)
  {
  }

  /** At its end, in the 65536th occupation, that connection is handed the answer to the first one's question, and takes
      it. */
  method LateAnswer(loop: EventLoop, bytes: Bytes, url: Bytes, addresses: seq<Address>)
    returns (ghost first: Moment, ghost script: seq<Happening>, ghost before: Moment, ghost answer: Answer)
    requires loop.Valid() && loop.worker.W() == World(loop.worker.setup, map[], map[], [], [], multiset{}, {})
    requires Modest(loop.worker.setup) && loop.received.filled == map[] && Steady(loop.control.K())
    requires loop.worker.maxConnections > 0 && loop.worker.ring.Size() > 0
    requires Forwardable(loop.worker.setup, bytes, url) && |bytes| <= loop.worker.ring.bufferLen
    modifies loop.control, loop.received, loop.worker, loop.worker.ring, loop.worker.ring.entries
    ensures first == old(loop.Now()) && Ran(first, before, loop.Limits(), script)
    ensures before.world.occupations == [URING_MODULUS] && answer.lookup in before.world.lookups
    ensures answer.lookup.occupation == 1
    ensures TurnTaken(before, loop.Now(), loop.Limits(), NamesResolved([answer], 0))
    ensures Handled(before.world, loop.Now().world, 0, Resolved(answer.addresses, answer.failures))
  {
    var last := URING_MODULUS - 1;
    ghost var e := ForwardableAsks(loop.worker.setup, bytes, url);
    BeginsQuietly(loop);
    first := loop.Now();
    ghost var none: set<Lookup>, names := {}, {FIRST_NAME};
    LateRun(loop, bytes, url, 0, last, e, none, names, first);
    before := loop.Now();
    script :| ReachedBy(loop, first, script);
    answer := Answer(FIRST_NAME, Some(addresses), 0);
    StandsSomebody(before, last + 1, e, names);
    ItsGeneration(before, last + 1, e, names);
    TakeTurn(loop, NamesResolved([Answer(Lookup(0, 1, 1), Some(addresses), 0)], 0), first);
    AnswerIsTaken(before, loop.Now(), loop.Limits(), last + 1, e, names, answer, 0);
  }

  lemma ItsGeneration(m: Moment, last: nat, e: Exchange, names: set<Lookup>)
    requires Somebody(m, last, e, names) && last == URING_MODULUS
    ensures 0 in m.world.connections && m.world.connections[0].generation == 1
  {
    FirstNumberRecurs();
    LoneRecord(m.world, e);
    SlotIsOk(m.world, 0);
  }
}
