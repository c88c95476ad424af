/** What one turn of the io_uring event loop does: to the connections, happening by happening; to the listeners and the
    shutdown bookkeeping, as a function; and when no turn can fail. */
module UringTurns {
  import opened Common
  import opened Http
  import opened Exchange
  import opened Identifiers
  import opened UringState
  import opened UringProgress

  datatype AcceptMode = SingleShot | Multishot

  datatype Listener = Listener(mode: AcceptMode, acceptPending: bool)
  {
    function RecordCompletion(hasMore: bool): Listener { this.(acceptPending := mode.Multishot? && hasMore) }

    function FallBackToSingleShot(): Listener { Listener(SingleShot, false) }
  }

  predicate MultishotUnsupported(result: int) { result == -EINVAL || result == -EOPNOTSUPP }

  datatype Answer = Answer(lookup: Lookup, addresses: Option<seq<Address>>, failures: nat)

  /** What can happen next: the worker is back at the top of its loop, the kernel fills a buffer for a receive, or the
      worker takes a completion from the ring. */
  datatype Happening =
    | LoopTop(now: nat, signalled: bool)
    | BufferFilled(op: Op, data: Bytes)
    | OperationDone(op: Op, result: int, plan: Plan, ready: bool, failures: nat, now: nat)
    | AcceptDone(index: nat, result: int, more: bool, choice: nat)
    | ShutdownRead
    | CancelDone
    | ProxyCancelDone
    | NamesResolved(answers: seq<Answer>, now: nat)
    | TimerExpired(now: nat, deliverable: set<nat>)

  datatype Outcome = Running | Drained | DeadlineReached(now: nat) | Failed

  // ---------------------------------------------------------------- listeners and shutdown

  /** The worker's listeners and shutdown fields; and on the kernel's side the accepts and cancels it has yet to report
      and which of the control reads it holds. */
  datatype Controls = Controls(
    listeners: seq<Listener>,
    requested: bool,
    shuttingDown: bool,
    shutdownStarted: Option<nat>,
    pendingCancellations: nat,
    accepts: map<nat, AcceptMode>,
    cancels: nat,
    controlArmed: bool,
    namesArmed: bool,
    timerArmed: bool)

  /** Before anything is submitted. */
  function Unarmed(listenerCount: nat, requested: bool): Controls {
    Controls(seq(listenerCount, _ => Listener(Multishot, false)), requested, false, None, 0, map[], 0, false, false,
      false)
  }

  /** A listener is marked pending exactly while the kernel has an accept of its mode; all are, until shutdown is
      requested. */
  ghost predicate Listening(listeners: seq<Listener>, accepts: map<nat, AcceptMode>, requested: bool) {
    && (forall i | i in accepts :: i < |listeners| && accepts[i] == listeners[i].mode)
    && (forall i | 0 <= i < |listeners| :: listeners[i].acceptPending == (i in accepts))
    && (!requested ==> forall i | 0 <= i < |listeners| :: listeners[i].acceptPending)
  }

  /** Shutdown bookkeeping: the counter is the number of cancels the kernel has yet to report; the timer is always
      armed, the others as long as they are needed. */
  ghost predicate ShutdownOk(c: Controls) {
    && c.shuttingDown == c.shutdownStarted.Some? && (c.shuttingDown ==> c.requested)
    && c.pendingCancellations == c.cancels && (!c.shuttingDown ==> c.cancels == 0)
    && c.timerArmed && (!c.shuttingDown ==> c.namesArmed) && (!c.requested ==> c.controlArmed)
  }

  ghost predicate ControlsOk(c: Controls) { Listening(c.listeners, c.accepts, c.requested) && ShutdownOk(c) }

  function SaturatingSub(a: nat, b: nat): nat { if a < b then 0 else a - b }

  function CountPending(listeners: seq<Listener>): nat {
    if listeners == [] then 0
    else CountPending(listeners[..|listeners| - 1]) + if listeners[|listeners| - 1].acceptPending then 1 else 0
  }

  /** The listener's accept is submitted, unless it is pending. */
  function Armed(c: Controls, index: nat): Controls
    requires index < |c.listeners|
  {
    if c.listeners[index].acceptPending then c
    else
      c.(accepts := c.accepts[index := c.listeners[index].mode],
         listeners := c.listeners[index := c.listeners[index].(acceptPending := true)])
  }

  /** The kernel announces more only after a connection that a multishot accept has brought. */
  predicate AcceptPossible(c: Controls, index: nat, result: int, more: bool) {
    index in c.accepts && index < |c.listeners| && (more ==> c.accepts[index].Multishot? && result >= 0)
  }

  /** The listener notes what became of its accept; one that the kernel does not know falls back to single shots. */
  function Recorded(c: Controls, index: nat, result: int, more: bool): Controls
    requires index < |c.listeners|
  {
    var listener := c.listeners[index].RecordCompletion(more);
    c.(accepts := if more then c.accepts else c.accepts - {index},
       listeners := c.listeners[index :=
         if c.listeners[index].mode.Multishot? && MultishotUnsupported(result) then listener.FallBackToSingleShot()
           else listener])
  }

  /** Shutdown begins once: every pending accept is cancelled. */
  function Begun(c: Controls, now: nat): Controls {
    if !c.requested || c.shuttingDown then c
    else
      var targets := CountPending(c.listeners);
      c.(shuttingDown := true, shutdownStarted := Some(now), pendingCancellations := targets, cancels := targets)
  }

  function NextControls(c: Controls, h: Happening): Controls {
    match h
    case LoopTop(now, signalled) => Begun(c.(requested := c.requested || signalled), now)
    case AcceptDone(index, result, more, _) =>
      if !AcceptPossible(c, index, result, more) then c
      else
        var noted := Recorded(c, index, result, more);
        if c.requested then noted else Armed(noted, index)
    case ShutdownRead => if c.controlArmed then c.(controlArmed := false, requested := true) else c
    case CancelDone =>
      if c.cancels == 0 then c
      else c.(cancels := c.cancels - 1, pendingCancellations := SaturatingSub(c.pendingCancellations, 1))
    case NamesResolved(_, _) => if c.namesArmed then c.(namesArmed := !c.shuttingDown) else c
    case _ => c
  }

  /** The top of the loop: once everything is drained, or it has taken too long, the run ends. */
  function TopOutcome(c: Controls, noConnections: bool, drainTimeout: nat, now: nat): Outcome {
    match c.shutdownStarted
    case None => Running
    case Some(started) =>
      if noConnections && c.pendingCancellations == 0 && c.accepts == map[] then Drained
      else if now >= started + drainTimeout then DeadlineReached(now)
      else Running
  }

  lemma AcceptKeepsListening(c: Controls, index: nat, result: int, more: bool)
    requires ControlsOk(c) && AcceptPossible(c, index, result, more)
    ensures ControlsOk(NextControls(c, AcceptDone(index, result, more, 0)))
  {
  }

  lemma NextControlsOk(c: Controls, h: Happening)
    requires ControlsOk(c)
    ensures ControlsOk(NextControls(c, h))
    ensures c.shuttingDown ==> NextControls(c, h).shuttingDown
  {
    if h.AcceptDone? && AcceptPossible(c, h.index, h.result, h.more) {
      AcceptKeepsListening(c, h.index, h.result, h.more);
    }
  }

  // ---------------------------------------------------------------- connections

  /** A receive ends with the bytes of the buffer it was given, or with none. */
  predicate ResultPossible(filled: map<Op, Filled>, op: Op, result: int) {
    IsReceive(op) && op !in filled ==> result <= 0
  }

  /** What the completion of an operation tells its connection. */
  function EventDone(filled: map<Op, Filled>, op: Op, result: int, plan: Plan, ready: bool, failures: nat): Event {
    if IsReceive(op) && op in filled
    then EventOf(op.id.kind, |filled[op].data|, filled[op].data, plan, ready, failures)
    else EventOf(op.id.kind, result, "", plan, ready, failures)
  }

  lemma NotAReceive(filled: map<Op, Filled>, op: Op)
    requires op in filled ==> IsReceive(op)
    ensures !IsReceive(op) ==> filled - {op} == filled
  {
  }

  lemma ReceiveEvent(filled: map<Op, Filled>, op: Op, result: int, data: Bytes, plan: Plan, ready: bool, failures: nat)
    requires IsReceive(op) && data == (if op in filled then filled[op].data else "")
    ensures EventDone(filled, op, result, plan, ready, failures) ==
      var length := if op in filled then |filled[op].data| else result;
      if op.id.kind.Read? then Received(length, data, plan) else Responded(length, data)
  {
  }

  ghost predicate OperationTaken(before: World, after: World, filled: map<Op, Filled>, h: Happening)
    requires h.OperationDone?
  {
    if h.op in before.inflight && ResultPossible(filled, h.op, h.result)
    then
      && Completed(before, after, h.op, EventDone(filled, h.op, h.result, h.plan, h.ready, h.failures))
      && OnTime(before, after, h.op.id.slot, h.now)
    else after == before
  }

  /** An answer to a lookup that is not outstanding does not occur. */
  ghost predicate OneAnswerTaken(before: World, after: World, a: Answer, now: nat) {
    if a.lookup in before.lookups
    then
      Answered(before, after, a.lookup, a.addresses, a.failures) && OnTime(before, after, a.lookup.slot, now)
    else after == before
  }

  /** A batch of answers, one after the other. */
  ghost predicate AnswersTaken(before: World, after: World, answers: seq<Answer>, now: nat)
    decreases |answers|
  {
    if answers == [] then after == before
    else
      var n := |answers| - 1;
      exists middle :: AnswersTaken(before, middle, answers[..n], now) && OneAnswerTaken(middle, after, answers[n], now)
  }

  lemma OneMoreAnswer(before: World, middle: World, after: World, answers: seq<Answer>, answer: Answer, now: nat)
    requires AnswersTaken(before, middle, answers, now) && OneAnswerTaken(middle, after, answer, now)
    ensures AnswersTaken(before, after, answers + [answer], now)
  {
    var more := answers + [answer];
    assert more[..|more| - 1] == answers && more[|more| - 1] == answer;
  }

  lemma AnswerSettled(before: World, after: World, a: Answer, now: nat)
    requires Sound(before) && OneAnswerTaken(before, after, a, now)
    ensures Settles(before, after)
  {
    if a.lookup !in before.lookups {
      SettlesReflexive(before);
    }
  }

  lemma {:induction false} AnswersSettle(before: World, after: World, answers: seq<Answer>, now: nat)
    requires Sound(before) && AnswersTaken(before, after, answers, now)
    ensures Settles(before, after)
    decreases |answers|
  {
    SettlesReflexive(before);
    if answers != [] {
      var n := |answers| - 1;
      var middle :| AnswersTaken(before, middle, answers[..n], now) && OneAnswerTaken(middle, after, answers[n], now);
      AnswersSettle(before, middle, answers[..n], now);
      AnswerSettled(middle, after, answers[n], now);
      SettlesTransitive(before, middle, after);
    }
  }

  /** A tick in its two sweeps: exactly the upstream halves that have been idle for too long time out; then exactly the
      file streams that have nothing to send take their next chunk. */
  ghost predicate TickSteps(
      before: World, between: World, after: World, expired: seq<nat>, pumped: seq<nat>,
      timeouts: Phase -> nat, now: nat, ready: set<nat>) {
    && (forall slot :: slot in expired <==>
      slot in before.connections && Overdue(before.connections[slot], timeouts, now))
    && Sweeping(before, between, expired, |expired|, Timeouts)
    && (forall slot :: slot in pumped <==> slot in between.connections && AwaitsChunk(between.connections[slot]))
    && Sweeping(between, after, pumped, |pumped|, Chunks(ready))
  }

  ghost predicate TickTaken(before: World, after: World, timeouts: Phase -> nat, now: nat, ready: set<nat>) {
    exists between, expired, pumped :: TickSteps(before, between, after, expired, pumped, timeouts, now, ready)
  }

  lemma TickSettles(before: World, after: World, timeouts: Phase -> nat, now: nat, ready: set<nat>)
    requires TickTaken(before, after, timeouts, now, ready)
    ensures Settles(before, after)
  {
    var between, expired, pumped :| TickSteps(before, between, after, expired, pumped, timeouts, now, ready);
    SettlesTransitive(before, between, after);
  }

  /** The limits of a worker that matter to a turn; the last two are those of its buffer ring. */
  datatype Limits = Limits(maxConnections: nat, timeouts: Phase -> nat, buffers: nat, bufferLen: nat)

  /** The effect of one happening on the connections, given the listeners and shutdown fields before it. */
  ghost predicate Effect(
      before: World, after: World, controls: Controls, filled: map<Op, Filled>, limits: Limits, h: Happening) {
    if h.OperationDone? then OperationTaken(before, after, filled, h)
    else if h.AcceptDone? then AcceptTaken(before, after, controls, limits.maxConnections, h)
    else if h.NamesResolved? && controls.namesArmed then AnswersTaken(before, after, h.answers, h.now)
    else if h.TimerExpired? then TickTaken(before, after, limits.timeouts, h.now, h.deliverable)
    else after == before
  }

  /** A connection is kept if one has arrived, the worker is not shutting down and there is room. */
  ghost predicate AcceptTaken(before: World, after: World, controls: Controls, maxConnections: nat, h: Happening)
    requires h.AcceptDone?
  {
    var arrived := AcceptPossible(controls, h.index, h.result, h.more) && h.result >= 0 && !controls.shuttingDown;
    Admitted(before, after, arrived && HasRoom(before, maxConnections, h.choice), h.choice)
  }

  // ---------------------------------------------------------------- turns

  /** The worker between two turns. */
  datatype Moment = Moment(world: World, controls: Controls, filled: map<Op, Filled>)

  /** The kernel has put received bytes into a buffer. */
  ghost predicate BufferTaken(
      inflight: multiset<Op>, before: map<Op, Filled>, after: map<Op, Filled>, op: Op, data: Bytes) {
    && op in inflight && IsReceive(op) && op !in before && data != ""
    && op in after && after[op].data == data && after - {op} == before
  }

  /** The kernel can put them there: the receive is in flight, and a buffer is left. */
  predicate CanFill(inflight: multiset<Op>, filled: map<Op, Filled>, op: Op, data: Bytes, limits: Limits) {
    op in inflight && op !in filled && IsReceive(op) && |filled| < limits.buffers && 0 < |data| <= limits.bufferLen
  }

  /** Which receives are completed and not handled: a buffer is filled, and the one of a handled receive is given
      back. */
  ghost predicate ReceivesTaken(
      inflight: multiset<Op>, before: map<Op, Filled>, after: map<Op, Filled>, limits: Limits, h: Happening) {
    if h.BufferFilled? then
      if CanFill(inflight, before, h.op, h.data, limits) then BufferTaken(inflight, before, after, h.op, h.data)
      else after == before
    else
      after ==
        if h.OperationDone? && h.op in inflight && ResultPossible(before, h.op, h.result) then before - {h.op}
          else before
  }

  /** One turn. */
  ghost predicate TurnTaken(before: Moment, after: Moment, limits: Limits, h: Happening) {
    && after.controls == NextControls(before.controls, h)
    && Effect(before.world, after.world, before.controls, before.filled, limits, h)
    && ReceivesTaken(before.world.inflight, before.filled, after.filled, limits, h)
  }

  lemma TopIsTaken(before: Moment, after: Moment, limits: Limits, h: Happening)
    requires h.LoopTop? && after == before.(controls := NextControls(before.controls, h))
    ensures TurnTaken(before, after, limits, h)
  {
  }

  /** A run, turn by turn. */
  ghost predicate Ran(before: Moment, after: Moment, limits: Limits, script: seq<Happening>)
    decreases |script|
  {
    if script == [] then after == before
    else
      var n := |script| - 1;
      exists now :: Ran(before, now, limits, script[..n]) && TurnTaken(now, after, limits, script[n])
  }

  lemma OneMoreTurn(before: Moment, now: Moment, after: Moment, limits: Limits, script: seq<Happening>, h: Happening)
    requires Ran(before, now, limits, script) && TurnTaken(now, after, limits, h)
    ensures Ran(before, after, limits, script + [h])
  {
    var more := script + [h];
    assert more[..|more| - 1] == script && more[|more| - 1] == h;
  }

  /** What is true of every stretch of a run: connections that stay have gone forward; and while the worker is shutting
      down no connection is added. */
  ghost predicate Advances(before: World, after: World, draining: bool) {
    Sound(after) && Progress(before, after) && (draining ==> Shrunk(before, after))
  }

  lemma EffectAdvances(
      before: World, after: World, controls: Controls, filled: map<Op, Filled>, limits: Limits, h: Happening)
    requires Sound(before) && Effect(before, after, controls, filled, limits, h)
    ensures Advances(before, after, controls.shuttingDown)
  {
    ProgressReflexive(before);
    if h.OperationDone? {
      OperationAdvances(before, after, filled, h);
    } else if h.AcceptDone? {
      AcceptAdvances(before, after, controls, limits.maxConnections, h);
    } else if h.NamesResolved? && controls.namesArmed {
      AnswersSettle(before, after, h.answers, h.now);
      SettlesShrinks(before, after);
    } else if h.TimerExpired? {
      TickSettles(before, after, limits.timeouts, h.now, h.deliverable);
      SettlesShrinks(before, after);
    }
  }

  lemma OperationAdvances(before: World, after: World, filled: map<Op, Filled>, h: Happening)
    requires Sound(before) && h.OperationDone? && OperationTaken(before, after, filled, h)
    ensures Advances(before, after, true)
  {
    if h.op in before.inflight && ResultPossible(filled, h.op, h.result) {
      var event := EventDone(filled, h.op, h.result, h.plan, h.ready, h.failures);
      HandledMeans(before, after, h.op.id.slot, event);
      CompletedShrinks(before, after, h.op, event);
    } else {
      ProgressReflexive(before);
    }
  }

  lemma AcceptIsGrown(before: World, after: World, controls: Controls, maxConnections: nat, h: Happening)
    requires Sound(before) && h.AcceptDone? && AcceptTaken(before, after, controls, maxConnections, h)
    ensures Grown(before, after)
  {
    ProgressReflexive(before);
  }

  lemma AcceptAdvances(before: World, after: World, controls: Controls, maxConnections: nat, h: Happening)
    requires Sound(before) && h.AcceptDone? && AcceptTaken(before, after, controls, maxConnections, h)
    ensures Advances(before, after, controls.shuttingDown)
  {
    ProgressReflexive(before);
  }

  lemma AdvancesTransitive(a: World, b: World, c: World, draining: bool, began: bool)
    requires Advances(a, b, draining) && Advances(b, c, began) && (draining ==> began)
    ensures Advances(a, c, draining)
  {
    ProgressTransitive(a, b, c);
  }

  /** Over any run, whatever the kernel does: every connection that stays is in a state its protocol can reach and has
      gone forward, slots are only taken over by later occupations, and once the worker is shutting down it stays so
      and keeps no new connection. */
  lemma {:induction false} RunAdvances(before: Moment, after: Moment, limits: Limits, script: seq<Happening>)
    requires Sound(before.world) && ControlsOk(before.controls) && Ran(before, after, limits, script)
    ensures Advances(before.world, after.world, before.controls.shuttingDown)
    ensures ControlsOk(after.controls) && (before.controls.shuttingDown ==> after.controls.shuttingDown)
    decreases |script|
  {
    if script == [] {
      ProgressReflexive(before.world);
    } else {
      var n := |script| - 1;
      var now :| Ran(before, now, limits, script[..n]) && TurnTaken(now, after, limits, script[n]);
      RunAdvances(before, now, limits, script[..n]);
      EffectAdvances(now.world, after.world, now.controls, now.filled, limits, script[n]);
      NextControlsOk(now.controls, script[n]);
      AdvancesTransitive(before.world, now.world, after.world, before.controls.shuttingDown, now.controls.shuttingDown);
    }
  }

  /** So after any run each connection has its one wake-up, and what it has relayed is what it has received but for one
      chunk; names are read until the worker shuts down, and the timer always runs. */
  lemma EveryRunIsAwaited(before: Moment, after: Moment, limits: Limits, script: seq<Happening>, slot: nat)
    requires Sound(before.world) && ControlsOk(before.controls) && Ran(before, after, limits, script)
    requires slot in after.world.connections
    ensures Placed(after.world, slot) && OneWakeUp(after.world, slot)
    ensures Relays(after.world.setup, after.world.exchanges[slot])
    ensures (after.controls.namesArmed || after.controls.shuttingDown) && after.controls.timerArmed
  {
    RunAdvances(before, after, limits, script);
    NamesAreRead(after.controls);
    EveryConnectionIsAwaited(after.world, slot);
    assert Occupied(after.world, slot);
    SafeRelays(after.world.setup, after.world.exchanges[slot]);
  }

  /** A connection that waits for a name still has its wake-up only as long as names are read: that is until the worker
      shuts down and a read of names has come back since. */
  lemma NamesAreRead(c: Controls)
    requires ControlsOk(c)
    ensures c.namesArmed || c.shuttingDown
    ensures c.timerArmed
  {
  }

  lemma OperationElsewhere(before: World, after: World, op: Op, event: Event, slot: nat)
    requires Sound(before) && op in before.inflight && Completed(before, after, op, event)
    requires slot in before.exchanges && before.exchanges[slot].stage.Resolving?
    ensures slot in after.exchanges && after.exchanges[slot] == before.exchanges[slot]
  {
    CompletionIsFresh(before, op);
    HandledMeans(before, after, op.id.slot, event);
    SameElsewhere(before, after, op.id.slot, Step(before.setup, before.exchanges[op.id.slot], event), slot);
  }

  lemma NamesStayUnread(c: Controls, h: Happening)
    requires !c.namesArmed
    ensures !NextControls(c, h).namesArmed
  {
  }

  /** After that, exactly the timer is left to end the waiting: no other happening changes the connection, and names are
      never read again. */
  lemma OnlyTheTimerIsLeft(before: Moment, after: Moment, limits: Limits, h: Happening, slot: nat)
    requires Sound(before.world) && TurnTaken(before, after, limits, h)
    requires slot in before.world.exchanges && before.world.exchanges[slot].stage.Resolving?
    requires !before.controls.namesArmed && !h.TimerExpired?
    ensures slot in after.world.exchanges && after.world.exchanges[slot] == before.world.exchanges[slot]
    ensures !after.controls.namesArmed
  {
    NamesStayUnread(before.controls, h);
    if h.OperationDone? && h.op in before.world.inflight && ResultPossible(before.filled, h.op, h.result) {
      var event := EventDone(before.filled, h.op, h.result, h.plan, h.ready, h.failures);
      OperationElsewhere(before.world, after.world, h.op, event, slot);
    }
  }

  // ---------------------------------------------------------------- no turn fails

  predicate SmallPieces(chunks: seq<Piece>) { forall i | 0 <= i < |chunks| :: |chunks[i]| <= U32_MAX }

  /** Whatever this connection sends fits the length field of a submission. */
  predicate Small(e: Exchange) {
    && |e.out| <= U32_MAX && |e.request| <= U32_MAX
    && (e.stage.Streaming? || e.stage.AwaitingChunk? ==> SmallPieces(e.stage.stream.chunks))
  }

  /** The configured limits fit 32 bits, and so do the notices whose length they do not bound. */
  ghost predicate Modest(setup: Setup) {
    && setup.maxRead <= U32_MAX && setup.maxWrite <= U32_MAX
    && forall notice: Notice :: !notice.Configured? ==> |setup.render(notice)| <= U32_MAX
  }

  predicate PlanFits(plan: Plan) {
    plan.Serve? ==> |plan.head| <= U32_MAX && (plan.stream.Some? ==> SmallPieces(plan.stream.value.chunks))
  }

  predicate EventFits(event: Event) { event.Received? ==> PlanFits(event.plan) }

  predicate Fits(h: Happening) { h.OperationDone? ==> PlanFits(h.plan) }

  predicate AllFit(script: seq<Happening>) { forall i | 0 <= i < |script| :: Fits(script[i]) }

  lemma DispatchIsSmall(setup: Setup, e: Exchange, head: RequestHead, body: Bytes, plan: Plan)
    requires Small(e) && Modest(setup) && PlanFits(plan) && !e.stage.Streaming? && !e.stage.AwaitingChunk?
    ensures Small(Dispatch(setup, e, head, body, plan))
  {
  }

  lemma ReceivedIsSmall(setup: Setup, e: Exchange, event: Event)
    requires InOrder(e) && Small(e) && Modest(setup) && EventFits(event) && event.Received? && Possible(e.stage, event)
    ensures Small(Step(setup, e, event))
  {
    if event.result > 0 {
      match Ingest(setup.maxRead, e.stage.buffer, e.stage.pending, event.data) {
        case More(_, _) =>
        case Rejected(refusal) => assert |setup.render(Refused(refusal))| <= U32_MAX;
        case Ready(head, body) => DispatchIsSmall(setup, e, head, body, event.plan);
      }
    }
  }

  lemma NextChunkIsSmall(e: Exchange, stream: Stream, ready: bool)
    requires |e.request| <= U32_MAX && SmallPieces(stream.chunks)
    ensures Small(NextChunk(e, stream, ready))
  {
  }

  lemma SentIsSmall(e: Exchange, result: int, ready: bool)
    requires IsSending(e.stage) && e.sent <= |e.out| && Small(e)
    ensures Small(OnSent(e, result, ready))
  {
    if 0 < result <= |e.out| - e.sent && e.stage.Streaming? {
      NextChunkIsSmall(Advance(e, result), e.stage.stream, ready);
    }
  }

  lemma ProxyStepIsSmall(setup: Setup, e: Exchange, event: Event)
    requires InOrder(e) && Small(e) && Modest(setup) && Possible(e.stage, event)
    requires event.Resolved? || event.Connected? || event.RequestSent? || event.Responded? || event.Expired?
    ensures Small(Step(setup, e, event))
  {
  }

  lemma StepIsSmall(setup: Setup, e: Exchange, event: Event)
    requires InOrder(e) && Small(e) && Modest(setup) && EventFits(event)
    ensures Small(Step(setup, e, event))
  {
    if Possible(e.stage, event) {
      if event.Received? {
        ReceivedIsSmall(setup, e, event);
      } else if event.Sent? {
        SentIsSmall(e, event.result, event.ready);
      } else if event.Pumped? {
        NextChunkIsSmall(e, e.stage.stream, event.ready);
      } else {
        ProxyStepIsSmall(setup, e, event);
      }
    }
  }

  /** Nothing that a connection of this worker sends can be too long to submit. */
  ghost predicate Comfortable(w: World) {
    Modest(w.setup) && forall slot | slot in w.exchanges :: Small(w.exchanges[slot])
  }

  lemma ComfortableCanSubmit(w: World, slot: nat, event: Event)
    requires Comfortable(w) && Placed(w, slot) && InOrder(w.exchanges[slot]) && EventFits(event)
    ensures CanSubmit(w, slot, event)
  {
    StepIsSmall(w.setup, w.exchanges[slot], event);
  }

  lemma WantedCanSubmit(w: World, l: Lookup, event: Event)
    requires Sound(w) && EventFits(event)
    ensures Comfortable(w) && Wants(w, l) ==> CanSubmit(w, l.slot, event)
  {
    if Comfortable(w) && Wants(w, l) {
      assert Occupied(w, l.slot);
      SafeIsInOrder(w.setup, w.exchanges[l.slot]);
      ComfortableCanSubmit(w, l.slot, event);
    }
  }

  /** An operation of a comfortable worker always finishes. */
  lemma OperationCanFinish(w: World, filled: map<Op, Filled>, h: Happening)
    requires Sound(w) && Comfortable(w) && h.OperationDone? && Fits(h)
    ensures CanFinish(w, filled, h)
  {
    if h.op in w.inflight {
      CompletionIsFresh(w, h.op);
      ComfortableCanSubmit(w, h.op.id.slot, EventDone(filled, h.op, h.result, h.plan, h.ready, h.failures));
    }
  }

  /** What the connection waits for once the operation is done can be submitted. */
  ghost predicate CanFinish(w: World, filled: map<Op, Filled>, h: Happening)
    requires h.OperationDone?
  {
    h.op in w.inflight && ResultPossible(filled, h.op, h.result) ==>
      CanSubmit(w, h.op.id.slot, EventDone(filled, h.op, h.result, h.plan, h.ready, h.failures))
  }

  lemma HandledStaysComfortable(before: World, after: World, slot: nat, event: Event)
    requires Comfortable(before) && Handled(before, after, slot, event) && EventFits(event)
    ensures Comfortable(after)
  {
    HandledMeans(before, after, slot, event);
    StepIsSmall(before.setup, before.exchanges[slot], event);
    BecomesComfortable(before, after, slot, Step(before.setup, before.exchanges[slot], event));
  }

  lemma BecomesComfortable(before: World, after: World, slot: nat, e: Exchange)
    requires Comfortable(before) && Small(e) && Becomes(before, after, slot, e)
    ensures Comfortable(after)
  {
  }

  lemma AnswerStaysComfortable(before: World, after: World, a: Answer, now: nat)
    requires Comfortable(before) && OneAnswerTaken(before, after, a, now)
    ensures Comfortable(after)
  {
    if a.lookup in before.lookups && Wants(before, a.lookup) {
      HandledStaysComfortable(before, after, a.lookup.slot, Resolved(a.addresses, a.failures));
    }
  }

  lemma {:induction false} AnswersStayComfortable(before: World, after: World, answers: seq<Answer>, now: nat)
    requires Comfortable(before) && AnswersTaken(before, after, answers, now)
    ensures Comfortable(after)
    decreases |answers|
  {
    if answers != [] {
      var n := |answers| - 1;
      var middle :| AnswersTaken(before, middle, answers[..n], now) && OneAnswerTaken(middle, after, answers[n], now);
      AnswersStayComfortable(before, middle, answers[..n], now);
      AnswerStaysComfortable(middle, after, answers[n], now);
    }
  }

  lemma SweptStaysComfortable(before: World, after: World, slots: seq<nat>, sweep: Sweep)
    requires Comfortable(before) && Sweeping(before, after, slots, |slots|, sweep)
    ensures Comfortable(after)
  {
    forall slot | slot in after.exchanges ensures Small(after.exchanges[slot]) {
      assert slot in before.exchanges;
      if slot in slots[..|slots|] {
        StepIsSmall(before.setup, before.exchanges[slot], SweepEvent(sweep, slot));
      }
    }
  }

  lemma SweepIsNotStuck(w: World, slots: seq<nat>, sweep: Sweep)
    requires Sound(w) && Comfortable(w) && forall slot | slot in slots :: slot in w.connections
    ensures !SweepIsStuck(w, slots, sweep)
  {
    forall i | 0 <= i < |slots| ensures CanSubmit(w, slots[i], SweepEvent(sweep, slots[i])) {
      assert slots[i] in slots && Occupied(w, slots[i]);
      SafeIsInOrder(w.setup, w.exchanges[slots[i]]);
      ComfortableCanSubmit(w, slots[i], SweepEvent(sweep, slots[i]));
    }
  }

  lemma AdmittedStaysComfortable(before: World, after: World, kept: bool, choice: nat)
    requires Comfortable(before) && Admitted(before, after, kept, choice)
    ensures Comfortable(after)
  {
  }

  /** A worker with modest limits stays comfortable whatever happens. */
  lemma EffectStaysComfortable(
      before: World, after: World, controls: Controls, filled: map<Op, Filled>, limits: Limits, h: Happening)
    requires Comfortable(before) && Effect(before, after, controls, filled, limits, h) && Fits(h)
    ensures Comfortable(after)
  {
    if h.OperationDone? && h.op in before.inflight && ResultPossible(filled, h.op, h.result) {
      HandledStaysComfortable(before, after, h.op.id.slot,
        EventDone(filled, h.op, h.result, h.plan, h.ready, h.failures));
    } else if h.AcceptDone? {
      var arrived := AcceptPossible(controls, h.index, h.result, h.more) && h.result >= 0 && !controls.shuttingDown;
      AdmittedStaysComfortable(before, after, arrived && HasRoom(before, limits.maxConnections, h.choice), h.choice);
    } else if h.NamesResolved? && controls.namesArmed {
      AnswersStayComfortable(before, after, h.answers, h.now);
    } else if h.TimerExpired? {
      TickStaysComfortable(before, after, limits.timeouts, h.now, h.deliverable);
    }
  }

  lemma TickStaysComfortable(before: World, after: World, timeouts: Phase -> nat, now: nat, ready: set<nat>)
    requires Comfortable(before) && TickTaken(before, after, timeouts, now, ready)
    ensures Comfortable(after)
  {
    var between, expired, pumped :| TickSteps(before, between, after, expired, pumped, timeouts, now, ready);
    SweptStaysComfortable(before, between, expired, Timeouts);
    SweptStaysComfortable(between, after, pumped, Chunks(ready));
  }

  lemma TurnIsComfortable(before: Moment, after: Moment, limits: Limits, h: Happening, ok: bool)
    requires Sound(before.world) && (ok ==> TurnTaken(before, after, limits, h))
    requires h.OperationDone? ==> ok == CanFinish(before.world, before.filled, h)
    requires !h.OperationDone? && Comfortable(before.world) ==> ok
    ensures Comfortable(before.world) && Fits(h) ==> ok && Comfortable(after.world)
  {
    if Comfortable(before.world) && Fits(h) {
      if h.OperationDone? {
        OperationCanFinish(before.world, before.filled, h);
      }
      EffectStaysComfortable(before.world, after.world, before.controls, before.filled, limits, h);
    }
  }
}
