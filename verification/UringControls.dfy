/** What the turns of the io_uring worker come to, said of their happenings: listeners, shutdown, arrivals, completions
    and the timer. */
module UringControls {
  import opened Common
  import opened Exchange
  import opened Identifiers
  import opened UringState
  import opened UringProgress
  import opened UringTurns

  // ---------------------------------------------------------------- listeners

  /** A listener gives up multishot accepts exactly if the kernel says that it does not know them, and never takes them
      up again; and when its accept is over it has a new one at once, in its mode, unless shutdown is requested. */
  lemma ListenerMeaning(c: Controls, index: nat, result: int, more: bool, choice: nat)
    requires ControlsOk(c) && AcceptPossible(c, index, result, more)
    ensures var after := NextControls(c, AcceptDone(index, result, more, choice));
            && |after.listeners| == |c.listeners|
            && (after.listeners[index].mode == SingleShot <==>
                  c.listeners[index].mode == SingleShot || result == -EINVAL || result == -EOPNOTSUPP)
            && (!c.requested ==> index in after.accepts && after.accepts[index] == after.listeners[index].mode)
            && (c.requested ==> (index in after.accepts <==> more && c.listeners[index].mode == Multishot))
            && forall i | 0 <= i < |c.listeners| && i != index ::
                 after.listeners[i] == c.listeners[i] && (i in after.accepts <==> i in c.accepts)
  {
  }

  /** No other happening changes a listener. */
  lemma ListenersStay(c: Controls, h: Happening)
    requires !h.AcceptDone?
    ensures NextControls(c, h).listeners == c.listeners && NextControls(c, h).accepts == c.accepts
  {
  }

  // ---------------------------------------------------------------- shutdown

  /** The listeners with an accept. */
  ghost function Pending(listeners: seq<Listener>): set<nat> {
    set i | 0 <= i < |listeners| && listeners[i].acceptPending
  }

  lemma {:induction false} PendingAreCounted(listeners: seq<Listener>)
    ensures |Pending(listeners)| == CountPending(listeners)
  {
    if listeners == [] {
      assert Pending(listeners) == {};
    } else {
      var n := |listeners| - 1;
      var front := listeners[..n];
      PendingAreCounted(front);
      if listeners[n].acceptPending {
        assert Pending(listeners) == Pending(front) + {n};
      } else {
        assert Pending(listeners) == Pending(front);
      }
    }
  }

  /** Shutdown begins at the first top of the loop after it is requested, by this or another thread, and then each
      accept that the kernel holds is cancelled, once; the moment is kept. */
  lemma ShutdownMeaning(c: Controls, now: nat, signalled: bool)
    requires ControlsOk(c)
    ensures var after := NextControls(c, LoopTop(now, signalled));
            && after.shuttingDown == (c.shuttingDown || c.requested || signalled)
            && (after.shuttingDown && !c.shuttingDown ==>
                  after.cancels == |c.accepts.Keys| == after.pendingCancellations && after.shutdownStarted == Some(now))
            && (c.shuttingDown || !after.shuttingDown ==>
                  after == c.(requested := after.requested))
  {
    PendingAreCounted(c.listeners);
    assert Pending(c.listeners) == c.accepts.Keys;
  }

  /** Only a request makes shutdown requested, and nothing takes it back. */
  lemma RequestedExactly(c: Controls, h: Happening)
    ensures NextControls(c, h).requested <==>
              c.requested || (h.LoopTop? && h.signalled) || (h.ShutdownRead? && c.controlArmed)
  {
  }

  /** The run ends at the top of the loop exactly if the worker is shutting down and either nothing is left, no
      connection, no accept and no cancel to be reported, or it has had its time. */
  lemma TopExactly(c: Controls, noConnections: bool, drainTimeout: nat, now: nat)
    requires ControlsOk(c)
    ensures var outcome := TopOutcome(c, noConnections, drainTimeout, now);
            var settled := c.shuttingDown && noConnections && c.cancels == 0 && c.accepts == map[];
            && (outcome == Drained <==> settled)
            && (outcome == DeadlineReached(now) <==>
                  c.shuttingDown && !settled && now >= c.shutdownStarted.value + drainTimeout)
            && (outcome == Running <==>
                  !settled && !(c.shuttingDown && now >= c.shutdownStarted.value + drainTimeout))
  {
  }

  // ---------------------------------------------------------------- arrivals

  /** The kernel reports a connection, the worker is not shutting down, and there is room and a number for it. */
  ghost predicate Welcome(before: Moment, limits: Limits, h: Happening)
    requires h.AcceptDone?
  {
    && AcceptPossible(before.controls, h.index, h.result, h.more) && h.result >= 0 && !before.controls.shuttingDown
    && |before.world.connections| < limits.maxConnections
    && VacantSlot(before.world.connections, before.world.generations, h.choice) <= 0xFFFF_FFFF
  }

  /** A connection begins the next occupation of a slot, and waits for its first receive. */
  ghost predicate Arrived(before: World, after: World, slot: nat) {
    && slot !in before.exchanges && after.exchanges == before.exchanges[slot := START]
    && slot < |after.occupations|
    && after.occupations[slot] == (if slot < |before.occupations| then before.occupations[slot] + 1 else 1)
    && AwaitsReceive(after, slot)
  }

  /** Exactly the welcome connections are kept. */
  lemma ArrivalExactly(before: Moment, after: Moment, limits: Limits, h: Happening)
    requires Sound(before.world) && h.AcceptDone? && TurnTaken(before, after, limits, h)
    ensures if Welcome(before, limits, h)
            then Arrived(before.world, after.world,
                   VacantSlot(before.world.connections, before.world.generations, h.choice))
            else after.world == before.world
  {
    AcceptOfTurn(before, after, limits, h);
    if Welcome(before, limits, h) {
      RetainedArrives(before.world, after.world,
        VacantSlot(before.world.connections, before.world.generations, h.choice));
    }
  }

  lemma AcceptOfTurn(before: Moment, after: Moment, limits: Limits, h: Happening)
    requires h.AcceptDone? && TurnTaken(before, after, limits, h)
    ensures Admitted(before.world, after.world, Welcome(before, limits, h), h.choice)
  {
    assert AcceptTaken(before.world, after.world, before.controls, limits.maxConnections, h);
  }

  lemma RetainedArrives(before: World, after: World, slot: nat)
    requires Retained(before, after, slot)
    ensures Arrived(before, after, slot)
  {
    RetainedAwaits(before, after, slot);
    RetainedOccupation(before, after, slot);
  }

  lemma RetainedOccupation(before: World, after: World, slot: nat)
    requires Retained(before, after, slot)
    ensures slot < |after.occupations|
    ensures after.occupations[slot] == if slot < |before.occupations| then before.occupations[slot] + 1 else 1
  {
  }

  ghost predicate AwaitsReceive(w: World, slot: nat) {
    slot < |w.generations| && slot < |w.occupations|
    && Op(OperationId(slot, w.generations[slot], Read), w.occupations[slot], NoMemory) in w.inflight
  }

  lemma RetainedAwaits(before: World, after: World, slot: nat)
    requires Retained(before, after, slot)
    ensures AwaitsReceive(after, slot)
  {
    assert slot in after.exchanges && slot in after.connections;
    SlotIsOk(after, slot);
  }

  // ---------------------------------------------------------------- completions

  /** Every completion of an operation in flight is news that its connection can take: it is told the result, and for a
      receive the bytes in the buffer it was given. */
  lemma CompletionIsNews(before: World, filled: map<Op, Filled>, h: Happening)
    requires Sound(before) && h.OperationDone? && h.op in before.inflight && ResultPossible(filled, h.op, h.result)
    ensures var e, event := before.exchanges[h.op.id.slot],
              EventDone(filled, h.op, h.result, h.plan, h.ready, h.failures);
            && h.op.id.slot in before.exchanges && Possible(e.stage, event)
            && match h.op.id.kind
               case Read =>
                 event == if h.op in filled then Received(|filled[h.op].data|, filled[h.op].data, h.plan)
                          else Received(h.result, "", h.plan)
               case Write => event == Sent(h.result, h.ready)
               case ProxyConnect => event == Connected(h.result, h.failures)
               case ProxyWrite => event == RequestSent(h.result)
               case ProxyRead =>
                 event == if h.op in filled then Responded(|filled[h.op].data|, filled[h.op].data)
                          else Responded(h.result, "")
               case Accept => false
  {
    CompletionIsFresh(before, h.op);
  }

  // ---------------------------------------------------------------- the timer

  /** An upstream half has made no progress for at least as long as its phase allows. */
  predicate TooLate(c: Connection, timeouts: Phase -> nat, now: nat) {
    && c.proxy.Some? && !c.proxy.value.timedOut && !c.writePending
    && var limit := timeouts(c.proxy.value.phase);
       limit == 0 || now >= c.proxy.value.progressAt + limit
  }

  lemma OverdueIsTooLate(c: Connection, timeouts: Phase -> nat, now: nat)
    ensures Overdue(c, timeouts, now) <==> TooLate(c, timeouts, now)
  {
  }

  /** Whoever is late waits for a name or for the upstream. */
  lemma LateWaits(w: World, slot: nat, timeouts: Phase -> nat, now: nat)
    requires Consistent(w, None) && slot in w.connections && Overdue(w.connections[slot], timeouts, now)
    ensures slot in w.exchanges && InOrder(w.exchanges[slot])
    ensures w.exchanges[slot].stage.Resolving? || UpstreamPending(w.exchanges[slot].stage)
  {
    SlotIsOk(w, slot);
    SafeIsInOrder(w.setup, w.exchanges[slot]);
    ProxyAwaits(w.connections[slot], w.exchanges[slot]);
  }

  lemma ExpiredDoesNotStream(setup: Setup, e: Exchange)
    requires InOrder(e) && (e.stage.Resolving? || UpstreamPending(e.stage))
    ensures !Step(setup, e, Expired).stage.AwaitingChunk?
  {
  }

  lemma AwaitsChunkExactly(w: World, slot: nat)
    requires Consistent(w, None) && slot in w.connections
    ensures slot in w.exchanges
    ensures AwaitsChunk(w.connections[slot]) <==> w.exchanges[slot].stage.AwaitingChunk?
  {
    SlotIsOk(w, slot);
    SafeIsInOrder(w.setup, w.exchanges[slot]);
    ChunkFlags(w.connections[slot], w.exchanges[slot]);
  }

  lemma ChunkFlags(c: Connection, e: Exchange)
    requires Represents(c, e) && InOrder(e) && !e.stage.Closed?
    ensures AwaitsChunk(c) <==> e.stage.AwaitingChunk?
  {
  }

  /** What a tick has done to one connection, in its two sweeps. */
  ghost predicate Ticked(
      before: World, between: World, after: World, slot: nat, late: bool, timeouts: Phase -> nat, ready: set<nat>)
    requires slot in before.exchanges
  {
    && (late ==> TookStep(before, between, slot, Expired))
    && (!late ==> Untouched(before, between, slot))
    && (slot in between.exchanges ==>
          slot in between.connections
          && if AwaitsChunk(between.connections[slot]) then TookStep(between, after, slot, Pumped(slot in ready))
             else Untouched(between, after, slot))
    && (slot !in between.exchanges ==> slot !in after.exchanges)
    && before.setup == between.setup
  }

  lemma TickOfOne(
      before: World, between: World, after: World, expired: seq<nat>, pumped: seq<nat>, timeouts: Phase -> nat,
      now: nat, ready: set<nat>, slot: nat)
    requires before.connections.Keys == before.exchanges.Keys && slot in before.connections
    requires TickSteps(before, between, after, expired, pumped, timeouts, now, ready)
    ensures Ticked(before, between, after, slot, Overdue(before.connections[slot], timeouts, now), timeouts, ready)
  {
    ExpiredOne(before, between, expired, slot);
    if slot in between.exchanges {
      PumpedOne(between, after, pumped, ready, slot);
    } else {
      SweepAddsNobody(between, after, pumped, Chunks(ready));
    }
  }

  lemma ExpiredOne(before: World, between: World, expired: seq<nat>, slot: nat)
    requires Sweeping(before, between, expired, |expired|, Timeouts) && slot in before.exchanges
    ensures slot in expired ==> TookStep(before, between, slot, Expired)
    ensures slot !in expired ==> Untouched(before, between, slot)
    ensures before.setup == between.setup && between.connections.Keys == between.exchanges.Keys
  {
    SweepMeans(before, between, expired, Timeouts, slot);
    SweepTook(before, between, expired, Timeouts, slot);
  }

  lemma PumpedOne(between: World, after: World, pumped: seq<nat>, ready: set<nat>, slot: nat)
    requires Sweeping(between, after, pumped, |pumped|, Chunks(ready)) && slot in between.exchanges
    ensures slot in pumped ==> TookStep(between, after, slot, Pumped(slot in ready))
    ensures slot !in pumped ==> Untouched(between, after, slot)
  {
    SweepMeans(between, after, pumped, Chunks(ready), slot);
  }

  lemma SweepTook(start: World, now: World, slots: seq<nat>, sweep: Sweep, slot: nat)
    requires Sweeping(start, now, slots, |slots|, sweep) && slot in start.exchanges
    ensures now.connections.Keys == now.exchanges.Keys
  {
  }

  lemma SweepAddsNobody(start: World, now: World, slots: seq<nat>, sweep: Sweep)
    requires Sweeping(start, now, slots, |slots|, sweep)
    ensures now.exchanges.Keys <= start.exchanges.Keys
  {
  }

  /** What the timer does to a connection: an upstream half that is too late times out; a file response that has nothing
      to send looks for its next chunk; all others are untouched. */
  lemma TimerMeaning(before: World, after: World, timeouts: Phase -> nat, now: nat, ready: set<nat>, slot: nat)
    requires Sound(before) && TickTaken(before, after, timeouts, now, ready) && slot in before.connections
    ensures slot in before.exchanges
    ensures var c := before.connections[slot];
            if TooLate(c, timeouts, now) then TookStep(before, after, slot, Expired)
            else if c.staticStream.Some? && !c.writePending && c.writeBuffer == ""
            then TookStep(before, after, slot, Pumped(slot in ready))
            else Untouched(before, after, slot)
  {
    var between, expired, pumped :| TickSteps(before, between, after, expired, pumped, timeouts, now, ready);
    var c := before.connections[slot];
    OverdueIsTooLate(c, timeouts, now);
    TickOfOne(before, between, after, expired, pumped, timeouts, now, ready, slot);
    if Overdue(c, timeouts, now) {
      LateWaits(before, slot, timeouts, now);
      ExpiredDoesNotStream(before.setup, before.exchanges[slot]);
      BetweenSweeps(before, between, after, expired, pumped, timeouts, now, ready, slot);
    }
  }

  lemma BetweenSweeps(
      before: World, between: World, after: World, expired: seq<nat>, pumped: seq<nat>, timeouts: Phase -> nat,
      now: nat, ready: set<nat>, slot: nat)
    requires TickSteps(before, between, after, expired, pumped, timeouts, now, ready)
    ensures slot in between.connections ==>
              slot in between.exchanges
              && (AwaitsChunk(between.connections[slot]) <==> between.exchanges[slot].stage.AwaitingChunk?)
  {
    if slot in between.connections {
      AwaitsChunkExactly(between, slot);
    }
  }

  // ---------------------------------------------------------------- what happens takes effect

  /** A completion makes its connection, and no other, take the protocol's step for it. */
  lemma CompletionTakesEffect(before: Moment, after: Moment, limits: Limits, h: Happening)
    requires Sound(before.world) && TurnTaken(before, after, limits, h)
    requires h.OperationDone? && h.op in before.world.inflight && ResultPossible(before.filled, h.op, h.result)
    ensures var slot, event := h.op.id.slot,
              EventDone(before.filled, h.op, h.result, h.plan, h.ready, h.failures);
            && slot in before.world.exchanges && InOrder(before.world.exchanges[slot])
            && Becomes(before.world, after.world, slot,
                 Step(before.world.setup, before.world.exchanges[slot], event))
  {
    HandledMeans(before.world, after.world, h.op.id.slot,
      EventDone(before.filled, h.op, h.result, h.plan, h.ready, h.failures));
  }

  /** A name that comes, while names are read, for a connection that waits for it makes it take the protocol's step. */
  lemma NameTakesEffect(before: Moment, after: Moment, limits: Limits, h: Happening, slot: nat)
    requires Sound(before.world) && TurnTaken(before, after, limits, h) && before.controls.namesArmed
    requires slot in before.world.exchanges && before.world.exchanges[slot].stage.Resolving?
    requires h.NamesResolved? && |h.answers| == 1 && slot < |before.world.occupations|
    requires h.answers[0].lookup == Lookup(slot, before.world.generations[slot], before.world.occupations[slot])
    ensures InOrder(before.world.exchanges[slot])
    ensures Becomes(before.world, after.world, slot,
              Step(before.world.setup, before.world.exchanges[slot],
                Resolved(h.answers[0].addresses, h.answers[0].failures)))
  {
    var a := h.answers[0];
    SlotIsOk(before.world, slot);
    OneAnswer(before.world, after.world, h.answers, h.now);
    AnswerReaches(before.world, after.world, a, slot, h.now);
  }

  lemma OneAnswer(before: World, after: World, answers: seq<Answer>, now: nat)
    requires |answers| == 1 && AnswersTaken(before, after, answers, now)
    ensures OneAnswerTaken(before, after, answers[0], now)
  {
    var middle :| AnswersTaken(before, middle, answers[..0], now) && OneAnswerTaken(middle, after, answers[0], now);
    assert answers[..0] == [];
  }

  lemma AnswerReaches(before: World, after: World, a: Answer, slot: nat, now: nat)
    requires OneAnswerTaken(before, after, a, now) && a.lookup in before.lookups && Wants(before, a.lookup)
    requires slot == a.lookup.slot
    ensures slot in before.exchanges && InOrder(before.exchanges[slot])
    ensures Becomes(before, after, slot,
              Step(before.setup, before.exchanges[slot], Resolved(a.addresses, a.failures)))
  {
    HandledMeans(before, after, slot, Resolved(a.addresses, a.failures));
  }

  /** The timer's expiry is a tick of the timer. */
  lemma TimerTakesEffect(before: Moment, after: Moment, limits: Limits, h: Happening)
    requires TurnTaken(before, after, limits, h) && h.TimerExpired?
    ensures TickTaken(before.world, after.world, limits.timeouts, h.now, h.deliverable)
  {
  }

  // ---------------------------------------------------------------- how long a phase has lasted

  /** When an upstream half last made progress: a completion or a name that moves it on, to another phase or address or
      by some bytes in either direction, makes it that moment, and one that does not leaves it. */
  lemma ProgressExactly(before: Moment, after: Moment, limits: Limits, h: Happening, slot: nat)
    requires Sound(before.world) && TurnTaken(before, after, limits, h)
    requires slot in before.world.connections && slot in after.world.connections
    requires h.OperationDone? && h.op in before.world.inflight && ResultPossible(before.filled, h.op, h.result)
    ensures var c, d := before.world.connections[slot], after.world.connections[slot];
            d.proxy.Some? ==>
              d.proxy.value.progressAt ==
              if c.proxy.Some? && d.proxy.value.phase == c.proxy.value.phase
                && d.proxy.value.requestOffset == c.proxy.value.requestOffset
                && d.proxy.value.addresses == c.proxy.value.addresses && d.writeBuffer == c.writeBuffer
              then c.proxy.value.progressAt else h.now
  {
    var event := EventDone(before.filled, h.op, h.result, h.plan, h.ready, h.failures);
    if slot != h.op.id.slot {
      HandledMeans(before.world, after.world, h.op.id.slot, event);
      OthersKeepTheirRecords(before.world, after.world, h.op.id.slot,
        Step(before.world.setup, before.world.exchanges[h.op.id.slot], event), slot);
    }
  }

  lemma OthersKeepTheirRecords(before: World, after: World, busy: nat, e: Exchange, slot: nat)
    requires Becomes(before, after, busy, e) && slot != busy && slot in before.connections && slot in after.connections
    ensures after.connections[slot] == before.connections[slot]
  {
    assert slot in before.connections - {busy} && slot in after.connections - {busy};
    assert (after.connections - {busy})[slot] == (before.connections - {busy})[slot];
  }

  /** The same for the name that a connection waits for. */
  lemma ProgressOnName(before: Moment, after: Moment, limits: Limits, h: Happening, slot: nat)
    requires TurnTaken(before, after, limits, h) && before.controls.namesArmed
    requires h.NamesResolved? && |h.answers| == 1 && h.answers[0].lookup.slot == slot
    requires h.answers[0].lookup in before.world.lookups
    requires slot in before.world.connections && slot in after.world.connections
    requires before.world.connections[slot].proxy.Some? && after.world.connections[slot].proxy.Some?
    requires after.world.connections[slot].proxy.value.phase != before.world.connections[slot].proxy.value.phase
    ensures after.world.connections[slot].proxy.value.progressAt == h.now
  {
    OneAnswer(before.world, after.world, h.answers, h.now);
  }
}
