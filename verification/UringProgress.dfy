/** What the steps of the io_uring worker add up to: every live connection is in a state that its protocol can reach,
    and over any stretch of a run the connections that stay only go forward. */
module UringProgress {
  import opened Common
  import opened Exchange
  import opened Identifiers
  import opened UringState
  import opened BufferRing

  ghost predicate Reachable(setup: Setup, e: Exchange) { exists events :: e == Run(setup, events) }

  lemma StartIsReachable(setup: Setup)
    ensures Reachable(setup, START)
  {
    assert START == Run(setup, []);
  }

  lemma NextIsReachable(setup: Setup, e: Exchange, event: Event)
    requires Reachable(setup, e) && InOrder(e)
    ensures Reachable(setup, Step(setup, e, event))
  {
    var events :| e == Run(setup, events);
    var longer := events + [event];
    assert longer[..|longer| - 1] == events;
    assert Run(setup, longer) == Step(setup, e, event);
  }

  /** The invariant between two completions. */
  ghost predicate Sound(w: World) {
    Consistent(w, None) && AllReachable(w)
  }

  ghost function Occupant(w: World, slot: nat): (o: Option<(Connection, Exchange)>)
    ensures o.Some? <==> Placed(w, slot)
  {
    if Placed(w, slot) then Some((w.connections[slot], w.exchanges[slot])) else None
  }

  /** One connection takes the protocol step for `event`, and leaves if that closes it; all others are untouched. */
  ghost predicate Stepped(before: World, after: World, slot: nat, event: Event) {
    match Occupant(before, slot)
    case None => false
    case Some((_, e)) => InOrder(e) && Becomes(before, after, slot, Step(before.setup, e, event))
  }

  ghost predicate Becomes(before: World, after: World, slot: nat, e: Exchange) {
    && after.setup == before.setup && after.generations == before.generations && after.occupations == before.occupations
    && after.exchanges == (if e.stage.Closed? then before.exchanges - {slot} else before.exchanges[slot := e])
    && after.connections - {slot} == before.connections - {slot}
  }

  /** The connection of `slot` is the one that was there, and has gone forward. */
  ghost predicate Continued(before: World, after: World, slot: nat) {
    && slot in before.exchanges && slot in after.exchanges
    && slot < |before.occupations| && slot < |after.occupations| && before.occupations[slot] == after.occupations[slot]
    && Extends(before.exchanges[slot], after.exchanges[slot])
  }

  /** The connection of `slot` is a later occupation than any there was. */
  ghost predicate Newer(before: World, after: World, slot: nat) {
    && slot < |after.occupations|
    && (slot < |before.occupations| ==> before.occupations[slot] < after.occupations[slot])
  }

  /** A stretch of a run: slots are only ever taken over by later occupations, and the connections that stay have
      gone forward. */
  ghost predicate Progress(before: World, after: World) {
    && |before.occupations| <= |after.occupations|
    && (forall slot | 0 <= slot < |before.occupations| :: before.occupations[slot] <= after.occupations[slot])
    && (forall slot | slot in after.exchanges :: Continued(before, after, slot) || Newer(before, after, slot))
  }

  lemma ProgressReflexive(w: World)
    requires Consistent(w, None)
    ensures Progress(w, w)
  {
    ConsistentIsInRange(w);
    forall slot | slot in w.exchanges ensures Continued(w, w, slot) {
      ExtendsReflexive(w.exchanges[slot]);
    }
  }

  lemma ExtendsReflexive(e: Exchange)
    ensures Extends(e, e)
  {
  }

  lemma ProgressTransitive(a: World, b: World, c: World)
    requires Progress(a, b) && Progress(b, c)
    ensures Progress(a, c)
  {
    forall slot | slot in c.exchanges ensures Continued(a, c, slot) || Newer(a, c, slot) {
      if Continued(b, c, slot) && Continued(a, b, slot) {
        ExtendsTransitive(a.exchanges[slot], b.exchanges[slot], c.exchanges[slot]);
      }
    }
  }

  ghost predicate AllReachable(w: World) { forall slot | slot in w.exchanges :: Reachable(w.setup, w.exchanges[slot]) }

  ghost predicate InRange(w: World) { forall slot | slot in w.exchanges :: slot < |w.occupations| }

  lemma ConsistentIsInRange(w: World)
    requires Consistent(w, None)
    ensures InRange(w)
  {
    forall slot | slot in w.exchanges ensures slot < |w.occupations| {
      assert Placed(w, slot);
    }
  }

  lemma RecordsAreInRange(w: World)
    requires Consistent(w, None)
    ensures w.connections.Keys == w.exchanges.Keys
    ensures forall slot | slot in w.connections :: slot < |w.generations|
  {
    forall slot | slot in w.connections ensures slot < |w.generations| {
      assert Placed(w, slot);
    }
  }

  /** One connection goes forward to `e`. */
  lemma ForwardIsProgress(before: World, after: World, slot: nat, e: Exchange)
    requires InRange(before) && AllReachable(before) && slot in before.exchanges
    requires Becomes(before, after, slot, e)
    requires Extends(before.exchanges[slot], e) && Reachable(before.setup, e)
    ensures Progress(before, after) && AllReachable(after)
  {
    forall other | other in after.exchanges
      ensures Continued(before, after, other) && Reachable(after.setup, after.exchanges[other])
    {
      if other != slot {
        ExtendsReflexive(before.exchanges[other]);
      }
    }
  }

  lemma SteppedProgress(before: World, after: World, slot: nat, event: Event)
    requires Sound(before) && Stepped(before, after, slot, event)
    ensures Progress(before, after) && AllReachable(after)
  {
    var e := before.exchanges[slot];
    assert Occupied(before, slot);
    StepExtends(before.setup, e, event);
    NextIsReachable(before.setup, e, event);
    ConsistentIsInRange(before);
    ForwardIsProgress(before, after, slot, Step(before.setup, e, event));
  }

  /** What handling one thing that happened to a connection does to the worker. */
  ghost predicate Handled(before: World, after: World, slot: nat, event: Event) {
    exists e :: HandledAs(before, after, slot, event, e)
  }

  /** The connection becomes `e`, the protocol's next state. */
  ghost predicate HandledAs(before: World, after: World, slot: nat, event: Event, e: Exchange) {
    match Occupant(before, slot)
    case None => false
    case Some((_, now)) =>
      && InOrder(now) && e == Step(before.setup, now, event) && Becomes(before, after, slot, e)
      && Sound(after) && Progress(before, after)
  }

  lemma HandledMeans(before: World, after: World, slot: nat, event: Event)
    requires Handled(before, after, slot, event)
    ensures slot in before.exchanges && InOrder(before.exchanges[slot])
    ensures Becomes(before, after, slot, Step(before.setup, before.exchanges[slot], event))
    ensures Sound(after) && Progress(before, after)
  {
    var e :| HandledAs(before, after, slot, event, e);
  }

  lemma MovedBecomes(before: World, gap: World, after: World, slot: nat, e: Exchange)
    requires gap == before.(inflight := gap.inflight, lookups := gap.lookups) && Moves(gap, after, slot, e)
    ensures Becomes(before, after, slot, e) && gap.inflight <= after.inflight
  {
    if !e.stage.Closed? {
      assert before.connections[slot := after.connections[slot]] - {slot} == before.connections - {slot};
    }
  }

  lemma BecomesIsHandled(before: World, after: World, slot: nat, event: Event)
    requires Sound(before) && slot in before.exchanges && InOrder(before.exchanges[slot]) && Consistent(after, None)
    requires Becomes(before, after, slot, Step(before.setup, before.exchanges[slot], event))
    ensures Handled(before, after, slot, event)
  {
    assert Occupied(before, slot);
    SteppedProgress(before, after, slot, event);
    assert HandledAs(before, after, slot, event, Step(before.setup, before.exchanges[slot], event));
  }

  lemma MovedIsHandled(before: World, gap: World, after: World, slot: nat, event: Event, e: Exchange)
    requires Sound(before) && Consistent(gap, Some(slot)) && slot in before.exchanges && InOrder(before.exchanges[slot])
    requires gap == before.(inflight := gap.inflight, lookups := gap.lookups)
    requires e == Step(before.setup, before.exchanges[slot], event) && Moves(gap, after, slot, e)
    ensures Handled(before, after, slot, event)
    ensures gap.inflight <= after.inflight
  {
    assert Occupied(before, slot);
    StepIsSafe(before.setup, before.exchanges[slot], event);
    MovingIsConsistent(gap, after, slot, e);
    MovedBecomes(before, gap, after, slot, e);
    BecomesIsHandled(before, after, slot, event);
  }

  /** The stage in which a connection waits for an operation of the given kind. */
  predicate WaitsFor(stage: Stage, kind: OperationKind) {
    match kind
    case Accept => false
    case Read => stage.Reading?
    case Write => IsSending(stage)
    case ProxyConnect => stage.Connecting?
    case ProxyWrite => stage.Requesting?
    case ProxyRead => stage.Responding?
  }

  lemma AwaitedKind(slot: nat, generation: nat, occupation: nat, e: Exchange, op: Op)
    requires Awaited(slot, generation, occupation, e) == Some(op)
    ensures op.id.slot == slot && op.id.generation == generation && op.occupation == occupation
      && WaitsFor(e.stage, op.id.kind)
  {
  }

  /** A completion is never stale: it is for the connection that now occupies the slot, which is waiting for it. */
  ghost predicate Fresh(w: World, op: Op) {
    match Occupant(w, op.id.slot)
    case None => false
    case Some((c, e)) =>
      && c.generation == op.id.generation && w.occupations[op.id.slot] == op.occupation
      && Represents(c, e) && InOrder(e) && WaitsFor(e.stage, op.id.kind)
  }

  lemma CompletionIsFresh(w: World, op: Op)
    requires Consistent(w, None) && op in w.inflight
    ensures Fresh(w, op)
  {
    var slot := op.id.slot;
    TheAwaitedOperation(w, op);
    SafeIsInOrder(w.setup, w.exchanges[slot]);
    AwaitedKind(slot, w.generations[slot], w.occupations[slot], w.exchanges[slot], op);
  }

  /** The world once the completion of `op` is taken out of the ring. */
  ghost function Reaped(w: World, op: Op): World { w.(inflight := w.inflight - multiset{op}) }

  /** What the completion of an operation does: one protocol step of its connection; everything else in flight stays. */
  ghost predicate Completed(before: World, after: World, op: Op, event: Event) {
    && after.lookups == before.lookups + Asked(before, op.id.slot, event)
    && (forall other | other in before.inflight && other != op :: other in after.inflight)
    && Handled(before, after, op.id.slot, event)
  }

  /** The name that the step makes the connection ask for, if any. */
  ghost function Asked(w: World, slot: nat, event: Event): set<Lookup> {
    match Occupant(w, slot)
    case None => {}
    case Some((_, e)) =>
      if InOrder(e) && Step(w.setup, e, event).stage.Resolving?
      then {Lookup(slot, w.generations[slot], w.occupations[slot])} else {}
  }

  lemma MovedAsks(before: World, after: World, op: Op, event: Event, e: Exchange)
    requires Fresh(before, op) && e == Step(before.setup, before.exchanges[op.id.slot], event)
    requires Moves(Reaped(before, op), after, op.id.slot, e)
    ensures after.lookups == before.lookups + Asked(before, op.id.slot, event)
  {
  }

  lemma MovedIsCompleted(before: World, after: World, op: Op, event: Event, e: Exchange)
    requires Sound(before) && op in before.inflight && Fresh(before, op)
    requires e == Step(before.setup, before.exchanges[op.id.slot], event)
      && Moves(Reaped(before, op), after, op.id.slot, e)
    ensures Completed(before, after, op, event)
  {
    CompletionOpensGap(before, Reaped(before, op), op);
    MovedIsHandled(before, Reaped(before, op), after, op.id.slot, event, e);
    OthersStay(before.inflight, after.inflight, op);
    MovedAsks(before, after, op, event, e);
  }

  lemma OthersStay(before: multiset<Op>, after: multiset<Op>, op: Op)
    requires before - multiset{op} <= after
    ensures forall other | other in before && other != op :: other in after
  {
  }

  lemma SentStep(setup: Setup, e: Exchange, result: int, ready: bool)
    requires InOrder(e) && WaitsFor(e.stage, Write)
    ensures Step(setup, e, Sent(result, ready)) == OnSent(e, result, ready)
  {
  }

  lemma SentIsCompleted(before: World, gap: World, after: World, op: Op, result: int, ready: bool, e: Exchange)
    requires Sound(before) && op in before.inflight && op.id.kind.Write? && Fresh(before, op)
    requires e == OnSent(before.exchanges[op.id.slot], result, ready) && gap == Reaped(before, op)
      && Moves(gap, after, op.id.slot, e)
    ensures Completed(before, after, op, Sent(result, ready))
  {
    SentStep(before.setup, before.exchanges[op.id.slot], result, ready);
    MovedIsCompleted(before, after, op, Sent(result, ready), e);
  }

  lemma ReceivedStep(setup: Setup, e: Exchange, result: int, data: Bytes, plan: Plan)
    requires InOrder(e) && WaitsFor(e.stage, Read) && (result > 0 ==> |data| == result)
    ensures Step(setup, e, Received(result, data, plan)) == OnReceived(setup, e, result, data, plan)
  {
  }

  lemma ReceivedIsCompleted(
      before: World, gap: World, after: World, op: Op, result: int, data: Bytes, plan: Plan, e: Exchange)
    requires Sound(before) && op in before.inflight && op.id.kind.Read? && Fresh(before, op)
    requires result > 0 ==> |data| == result
    requires e == OnReceived(before.setup, before.exchanges[op.id.slot], result, data, plan)
      && gap == Reaped(before, op) && Moves(gap, after, op.id.slot, e)
    ensures Completed(before, after, op, Received(result, data, plan))
  {
    ReceivedStep(before.setup, before.exchanges[op.id.slot], result, data, plan);
    MovedIsCompleted(before, after, op, Received(result, data, plan), e);
  }

  lemma ConnectedStep(setup: Setup, e: Exchange, result: int, failures: nat)
    requires InOrder(e) && WaitsFor(e.stage, ProxyConnect)
    ensures Step(setup, e, Connected(result, failures)) == OnConnected(setup, e, result, failures)
  {
  }

  lemma ConnectedIsCompleted(before: World, gap: World, after: World, op: Op, result: int, failures: nat, e: Exchange)
    requires Sound(before) && op in before.inflight && op.id.kind.ProxyConnect? && Fresh(before, op)
    requires e == OnConnected(before.setup, before.exchanges[op.id.slot], result, failures)
      && gap == Reaped(before, op) && Moves(gap, after, op.id.slot, e)
    ensures Completed(before, after, op, Connected(result, failures))
  {
    ConnectedStep(before.setup, before.exchanges[op.id.slot], result, failures);
    MovedIsCompleted(before, after, op, Connected(result, failures), e);
  }

  lemma RequestSentStep(setup: Setup, e: Exchange, result: int)
    requires InOrder(e) && WaitsFor(e.stage, ProxyWrite)
    ensures Step(setup, e, RequestSent(result)) == OnRequestSent(setup, e, result)
  {
  }

  lemma RequestSentIsCompleted(before: World, gap: World, after: World, op: Op, result: int, e: Exchange)
    requires Sound(before) && op in before.inflight && op.id.kind.ProxyWrite? && Fresh(before, op)
    requires e == OnRequestSent(before.setup, before.exchanges[op.id.slot], result) && gap == Reaped(before, op)
      && Moves(gap, after, op.id.slot, e)
    ensures Completed(before, after, op, RequestSent(result))
  {
    RequestSentStep(before.setup, before.exchanges[op.id.slot], result);
    MovedIsCompleted(before, after, op, RequestSent(result), e);
  }

  lemma RespondedStep(setup: Setup, e: Exchange, result: int, data: Bytes)
    requires InOrder(e) && WaitsFor(e.stage, ProxyRead) && (result > 0 ==> |data| == result)
    ensures Step(setup, e, Responded(result, data)) == OnResponded(setup, e, result, data)
  {
  }

  lemma RespondedIsCompleted(before: World, gap: World, after: World, op: Op, result: int, data: Bytes, e: Exchange)
    requires Sound(before) && op in before.inflight && op.id.kind.ProxyRead? && Fresh(before, op)
    requires result > 0 ==> |data| == result
    requires e == OnResponded(before.setup, before.exchanges[op.id.slot], result, data) && gap == Reaped(before, op)
      && Moves(gap, after, op.id.slot, e)
    ensures Completed(before, after, op, Responded(result, data))
  {
    RespondedStep(before.setup, before.exchanges[op.id.slot], result, data);
    MovedIsCompleted(before, after, op, Responded(result, data), e);
  }

  /** What a completion tells its connection. */
  function EventOf(kind: OperationKind, result: int, data: Bytes, plan: Plan, ready: bool, failures: nat): Event {
    match kind
    case Read => Received(result, data, plan)
    case Write => Sent(result, ready)
    case ProxyConnect => Connected(result, failures)
    case ProxyWrite => RequestSent(result)
    case _ => Responded(result, data)
  }

  // ---------------------------------------------------------------- without a completion

  lemma ResolvedStep(setup: Setup, e: Exchange, answer: Option<seq<Address>>, failures: nat)
    requires InOrder(e) && e.stage.Resolving?
    ensures Step(setup, e, Resolved(answer, failures)) == OnResolved(setup, e, answer, failures)
  {
  }

  /** An answer for the connection that is waiting for it. */
  lemma ResolvedIsHandled(
      before: World, gap: World, after: World, l: Lookup, answer: Option<seq<Address>>, failures: nat, e: Exchange)
    requires Sound(before) && l.slot in before.exchanges && gap == before.(lookups := before.lookups - {l})
    requires InOrder(before.exchanges[l.slot]) && before.exchanges[l.slot].stage.Resolving?
    requires e == OnResolved(before.setup, before.exchanges[l.slot], answer, failures) && Moves(gap, after, l.slot, e)
    ensures Handled(before, after, l.slot, Resolved(answer, failures)) && before.inflight <= after.inflight
  {
    assert Placed(before, l.slot);
    IdleOpensGap(before, l.slot);
    AnswerTaken(before, l, Some(l.slot));
    ResolvedStep(before.setup, before.exchanges[l.slot], answer, failures);
    MovedIsHandled(before, gap, after, l.slot, Resolved(answer, failures), e);
  }

  lemma IgnoredAnswerIsSound(before: World, l: Lookup)
    requires Sound(before)
    requires !Wants(before, l)
    ensures Sound(before.(lookups := before.lookups - {l}))
  {
    AnswerTaken(before, l, None);
  }

  lemma AnswerSettles(before: World, l: Lookup)
    requires Sound(before) && Sound(before.(lookups := before.lookups - {l}))
    ensures Settles(before, before.(lookups := before.lookups - {l}))
  {
    ProgressReflexive(before);
    SameExchanges(before, before, before.(lookups := before.lookups - {l}));
  }

  /** An answer changes a connection only if it is waiting for a name under that identifier, and then it was asked for
      by that very occupation of the slot unless the slot has been taken over 65535 times since. */
  ghost predicate Answered(before: World, after: World, l: Lookup, answer: Option<seq<Address>>, failures: nat) {
    if Wants(before, l)
    then
      && Settles(before, after) && Handled(before, after, l.slot, Resolved(answer, failures))
      && l.slot < |before.occupations|
      && (before.occupations[l.slot] - l.occupation < URING_MODULUS - 1 ==> l.occupation == before.occupations[l.slot])
    else
      Settles(before, after) && after == before.(lookups := before.lookups - {l})
  }

  lemma WantedIsAnswered(
      before: World, gap: World, after: World, l: Lookup, answer: Option<seq<Address>>, failures: nat, e: Exchange)
    requires Sound(before) && l in before.lookups && gap == before.(lookups := before.lookups - {l}) && Wants(before, l)
    requires e == OnResolved(before.setup, before.exchanges[l.slot], answer, failures) && Moves(gap, after, l.slot, e)
    ensures Answered(before, after, l, answer, failures)
  {
    assert Occupied(before, l.slot);
    SafeIsInOrder(before.setup, before.exchanges[l.slot]);
    ResolvedIsHandled(before, gap, after, l, answer, failures, e);
    HandledSettles(before, after, l.slot, Resolved(answer, failures));
    if before.occupations[l.slot] - l.occupation < URING_MODULUS - 1 {
      LookupNamesItsOccupation(before, l);
    }
  }

  /** Exactly when an answer is taken: the connection is waiting for a name, and the slot has been taken over a multiple
      of 65535 times since the name was asked for. */
  lemma WantedExactly(w: World, l: Lookup)
    requires Numbered(w) && l in w.lookups && Placed(w, l.slot) && w.exchanges[l.slot].stage.Resolving?
    ensures Wants(w, l) <==> Recurs(w.occupations[l.slot], l.occupation)
  {
    RecursExactly(l.occupation, w.occupations[l.slot]);
  }

  lemma RecursExactly(a: nat, b: nat)
    requires 0 < a <= b
    ensures GenerationAt(URING_MODULUS, a) == GenerationAt(URING_MODULUS, b) <==> Recurs(b, a)
  {
    SameGeneration(URING_MODULUS, a, b);
  }

  predicate Recurs(now: int, once: int) { (now - once) % (URING_MODULUS - 1) == 0 }

  /** The first number of a slot is also that of its 65536th occupation. */
  lemma FirstNumberRecurs()
    ensures GenerationAt(URING_MODULUS, 1) == GenerationAt(URING_MODULUS, URING_MODULUS) == 1
  {
    SmallRemainder(0, URING_MODULUS - 1);
    Remainder(URING_MODULUS - 1, 1, 0, URING_MODULUS - 1);
    GenerationIsPeriodic(URING_MODULUS, 1);
    GenerationIsPeriodic(URING_MODULUS, URING_MODULUS);
  }

  lemma UnwantedIsAnswered(before: World, after: World, l: Lookup, answer: Option<seq<Address>>, failures: nat)
    requires Sound(before) && after == before.(lookups := before.lookups - {l}) && !Wants(before, l)
    ensures Answered(before, after, l, answer, failures)
  {
    IgnoredAnswerIsSound(before, l);
    AnswerSettles(before, l);
  }

  lemma ExpiredStep(setup: Setup, e: Exchange)
    requires InOrder(e)
    ensures Step(setup, e, Expired) == OnExpired(setup, e)
  {
  }

  /** A lookup that has timed out. */
  lemma ExpiredIsHandled(before: World, after: World, slot: nat, e: Exchange)
    requires Sound(before) && slot in before.exchanges && InOrder(before.exchanges[slot])
      && before.exchanges[slot].stage.Resolving?
    requires e == FailUpstream(before.setup, before.exchanges[slot], TimedOut(ResolvingPhase))
      && Moves(before, after, slot, e)
    ensures Handled(before, after, slot, Expired) && before.inflight <= after.inflight
  {
    assert Placed(before, slot);
    IdleOpensGap(before, slot);
    ExpiredStep(before.setup, before.exchanges[slot]);
    MovedIsHandled(before, before, after, slot, Expired, e);
  }

  /** An upstream operation that has timed out. */
  lemma FlaggedIsHandled(before: World, after: World, slot: nat)
    requires before.connections.Keys == before.exchanges.Keys && Sound(before) && slot in before.exchanges
      && InOrder(before.exchanges[slot]) && UpstreamPending(before.exchanges[slot].stage)
    requires before.connections[slot].proxy.Some? && after == Flagged(before, slot)
    ensures Handled(before, after, slot, Expired) && before.inflight == after.inflight
  {
    FlaggingIsConsistent(before, slot);
    ExpiredStep(before.setup, before.exchanges[slot]);
    FlaggedBecomes(before, slot, before.exchanges[slot].(timedOut := true));
    BecomesIsHandled(before, Flagged(before, slot), slot, Expired);
  }

  lemma FlaggedBecomes(w: World, slot: nat, e: Exchange)
    requires slot in w.connections && slot in w.exchanges && w.connections[slot].proxy.Some?
    requires e == w.exchanges[slot].(timedOut := true) && !e.stage.Closed?
    ensures Becomes(w, Flagged(w, slot), slot, e)
  {
    assert w.connections[slot := Flagged(w, slot).connections[slot]] - {slot} == w.connections - {slot};
  }

  lemma PumpedStep(setup: Setup, e: Exchange, ready: bool)
    requires InOrder(e) && e.stage.AwaitingChunk?
    ensures Step(setup, e, Pumped(ready)) == NextChunk(e, e.stage.stream, ready)
  {
  }

  lemma PumpedIsHandled(before: World, after: World, slot: nat, ready: bool, e: Exchange)
    requires Sound(before) && slot in before.exchanges && InOrder(before.exchanges[slot])
      && before.exchanges[slot].stage.AwaitingChunk?
    requires e == NextChunk(before.exchanges[slot], before.exchanges[slot].stage.stream, ready)
      && Moves(before, after, slot, e)
    ensures Handled(before, after, slot, Pumped(ready)) && before.inflight <= after.inflight
  {
    assert Placed(before, slot);
    IdleOpensGap(before, slot);
    PumpedStep(before.setup, before.exchanges[slot], ready);
    MovedIsHandled(before, before, after, slot, Pumped(ready), e);
  }

  // ---------------------------------------------------------------- new connections

  lemma InsertedProgress(before: World, after: World, slot: nat, c: Connection)
    requires InRange(before) && AllReachable(before) && slot !in before.connections
    requires slot <= |before.generations| == |before.occupations|
    requires after == Inserted(before, slot, c)
    ensures Progress(before, after) && AllReachable(after)
  {
    StartIsReachable(before.setup);
    forall other | other in after.exchanges ensures Continued(before, after, other) || Newer(before, after, other) {
      if other != slot {
        ExtendsReflexive(before.exchanges[other]);
      }
    }
  }

  lemma SameExchanges(a: World, b: World, c: World)
    requires Progress(a, b) && AllReachable(b)
    requires c.setup == b.setup && c.exchanges == b.exchanges && c.occupations == b.occupations
    ensures Progress(a, c) && AllReachable(c)
  {
    forall slot | slot in c.exchanges ensures Continued(a, c, slot) || Newer(a, c, slot) {
      assert Continued(a, b, slot) || Newer(a, b, slot);
    }
  }

  lemma LandedWhereItIs(before: World, after: World, slot: nat, e: Exchange)
    requires Lands(before, after, slot, e) && before.exchanges[slot] == e
    ensures after.setup == before.setup && after.exchanges == before.exchanges
      && after.occupations == before.occupations
    ensures before.inflight <= after.inflight
  {
  }

  /** The first receive of a new connection is submitted. */
  lemma FirstReceive(gap: World, after: World, slot: nat, e: Exchange)
    requires Consistent(gap, Some(slot)) && e == START && Lands(gap, after, slot, e)
    ensures Consistent(after, None)
  {
    StartIsSafe(gap.setup);
    LandingIsConsistent(gap, after, slot, e);
  }

  /** A new connection waits for its request, in the slot's next occupation. */
  lemma RetainedIsSound(before: World, gap: World, after: World, slot: nat, c: Connection, e: Exchange)
    requires Sound(before) && slot !in before.connections && slot <= |before.generations| == |before.occupations|
    requires c.generation ==
      NextGeneration(URING_MODULUS, if slot == |before.generations| then 0 else before.generations[slot])
    requires e == START && gap == Inserted(before, slot, c) && Lands(gap, after, slot, e)
    ensures Sound(after) && Progress(before, after) && before.inflight <= after.inflight
    ensures after.exchanges == before.exchanges[slot := e]
  {
    InsertionOpensGap(before, slot, c);
    FirstReceive(gap, after, slot, e);
    ConsistentIsInRange(before);
    InsertedProgress(before, gap, slot, c);
    LandedWhereItIs(gap, after, slot, e);
    SameExchanges(before, gap, after);
  }

  // ---------------------------------------------------------------- stretches without new connections

  /** Nothing was accepted: connections only left or went forward, and nothing in flight was lost. */
  ghost predicate Settles(before: World, after: World) {
    && Sound(after) && Progress(before, after)
    && after.exchanges.Keys <= before.exchanges.Keys
    && after.generations == before.generations && after.occupations == before.occupations
    && (forall op | op in before.inflight :: op in after.inflight)
  }

  lemma SettlesReflexive(w: World)
    requires Sound(w)
    ensures Settles(w, w)
  {
    ProgressReflexive(w);
  }

  lemma SettlesTransitive(a: World, b: World, c: World)
    requires Settles(a, b) && Settles(b, c)
    ensures Settles(a, c)
  {
    ProgressTransitive(a, b, c);
  }

  lemma HandledSettles(before: World, after: World, slot: nat, event: Event)
    requires Handled(before, after, slot, event) && before.inflight <= after.inflight
    ensures Settles(before, after)
  {
    var e :| HandledAs(before, after, slot, event, e);
  }

  // ---------------------------------------------------------------- sweeps over all connections

  /** A proxied connection with nothing being sent to its client waits for the upstream, or for a name. */
  lemma ProxyAwaits(c: Connection, e: Exchange)
    requires Represents(c, e) && InOrder(e) && !e.stage.Closed? && !c.writePending && c.proxy.Some?
    ensures c.proxy.value.operationPending == UpstreamPending(e.stage)
    ensures !c.proxy.value.operationPending ==> e.stage.Resolving? && c.proxy.value.phase == ResolvingPhase
    ensures !c.readPending && c.staticStream.None? && c.proxy.value.responseStarted == (e.log.fromUpstream != "")
  {
  }

  /** A file response with nothing left to send waits for its next chunk. */
  lemma StreamAwaits(c: Connection, e: Exchange)
    requires Represents(c, e) && InOrder(e) && !e.stage.Closed? && !c.writePending && c.staticStream.Some?
    ensures e.stage.AwaitingChunk? && e.stage.stream == c.staticStream.value
    ensures !c.readPending && c.proxy.None? && c.writeBuffer == "" && c.writeOffset == 0
  {
  }

  /** What the timer does to the connections it picks. */
  datatype Sweep = Timeouts | Chunks(ready: set<nat>)

  function SweepEvent(sweep: Sweep, slot: nat): Event {
    match sweep
    case Timeouts => Expired
    case Chunks(ready) => Pumped(slot in ready)
  }

  ghost predicate TookStep(before: World, after: World, slot: nat, event: Event)
    requires slot in before.exchanges
  {
    && InOrder(before.exchanges[slot])
    && var e := Step(before.setup, before.exchanges[slot], event);
       if e.stage.Closed? then slot !in after.exchanges else slot in after.exchanges && after.exchanges[slot] == e
  }

  ghost predicate Untouched(before: World, after: World, slot: nat)
    requires slot in before.exchanges
  {
    && slot in after.exchanges && after.exchanges[slot] == before.exchanges[slot]
    && slot in before.connections && slot in after.connections && after.connections[slot] == before.connections[slot]
  }

  /** The connections of `done`, and no others, have taken their step. */
  ghost predicate Swept(before: World, after: World, done: seq<nat>, sweep: Sweep) {
    forall slot | slot in before.exchanges ::
      if slot in done then TookStep(before, after, slot, SweepEvent(sweep, slot)) else Untouched(before, after, slot)
  }

  lemma NothingSwept(w: World, sweep: Sweep)
    requires Sound(w)
    ensures Swept(w, w, [], sweep)
  {
  }

  lemma UntouchedElsewhere(before: World, after: World, slot: nat, e: Exchange, other: nat)
    requires Becomes(before, after, slot, e) && other != slot && other in before.exchanges
      && other in before.connections
    ensures Untouched(before, after, other)
  {
    assert other in before.connections - {slot};
    assert other in after.connections - {slot};
    assert (after.connections - {slot})[other] == (before.connections - {slot})[other];
  }

  lemma SameElsewhere(before: World, after: World, slot: nat, e: Exchange, other: nat)
    requires Becomes(before, after, slot, e) && other != slot
    ensures other in after.exchanges <==> other in before.exchanges
    ensures other in after.exchanges ==> after.exchanges[other] == before.exchanges[other]
  {
  }

  /** One more connection has taken its step. */
  lemma SweptOneMore(start: World, before: World, after: World, done: seq<nat>, sweep: Sweep, slot: nat, e: Exchange)
    requires Swept(start, before, done, sweep) && slot in start.exchanges && slot !in done
    requires Becomes(before, after, slot, e) && TookStep(start, after, slot, SweepEvent(sweep, slot))
    ensures Swept(start, after, done + [slot], sweep)
  {
    forall other | other in start.exchanges
      ensures if other in done + [slot] then TookStep(start, after, other, SweepEvent(sweep, other))
        else Untouched(start, after, other)
    {
      if other != slot {
        SameElsewhere(before, after, slot, e, other);
        if other !in done {
          UntouchedElsewhere(before, after, slot, e, other);
        }
      }
    }
  }

  lemma TookItsStep(start: World, before: World, after: World, slot: nat, event: Event)
    requires slot in start.exchanges && Untouched(start, before, slot) && before.setup == start.setup
    requires Handled(before, after, slot, event)
    ensures TookStep(start, after, slot, event)
    ensures Becomes(before, after, slot, Step(before.setup, before.exchanges[slot], event))
  {
    var e :| HandledAs(before, after, slot, event, e);
  }

  lemma SweptMore(start: World, before: World, after: World, done: seq<nat>, sweep: Sweep, slot: nat)
    requires Swept(start, before, done, sweep) && before.setup == start.setup && slot in start.exchanges
      && slot !in done
    requires Handled(before, after, slot, SweepEvent(sweep, slot))
    ensures Swept(start, after, done + [slot], sweep) && after.setup == start.setup
  {
    TookItsStep(start, before, after, slot, SweepEvent(sweep, slot));
    SweptOneMore(start, before, after, done, sweep, slot,
      Step(before.setup, before.exchanges[slot], SweepEvent(sweep, slot)));
  }

  /** A sweep that has come to the i-th of the slots it is to visit. */
  ghost predicate Sweeping(start: World, now: World, slots: seq<nat>, i: nat, sweep: Sweep) {
    && i <= |slots| && now.setup == start.setup && now.lookups == start.lookups
    && Settles(start, now) && Swept(start, now, slots[..i], sweep)
  }

  /** What a finished sweep has done to one connection. */
  lemma SweepMeans(start: World, now: World, slots: seq<nat>, sweep: Sweep, slot: nat)
    requires Sweeping(start, now, slots, |slots|, sweep) && slot in start.exchanges
    ensures slot in slots ==> TookStep(start, now, slot, SweepEvent(sweep, slot))
    ensures slot !in slots ==> Untouched(start, now, slot)
    ensures now.setup == start.setup && now.lookups == start.lookups && now.occupations == start.occupations
    ensures now.exchanges.Keys <= start.exchanges.Keys && Sound(now)
  {
    AllOf(slots);
  }

  lemma SweepBegins(w: World, slots: seq<nat>, sweep: Sweep)
    requires Sound(w)
    ensures Sweeping(w, w, slots, 0, sweep)
  {
    SettlesReflexive(w);
    NothingSwept(w, sweep);
  }

  lemma NextInSweep(start: World, now: World, slots: seq<nat>, i: nat, sweep: Sweep)
    requires Sweeping(start, now, slots, i, sweep) && i < |slots| && NoDuplicates(slots) && slots[i] in start.exchanges
    ensures Untouched(start, now, slots[i]) && slots[i] !in slots[..i]
  {
    assert slots[i] !in slots[..i];
  }

  lemma SweepAdvances(start: World, before: World, after: World, slots: seq<nat>, i: nat, sweep: Sweep, event: Event)
    requires Sweeping(start, before, slots, i, sweep) && i < |slots| && NoDuplicates(slots)
      && slots[i] in start.exchanges
    requires event == SweepEvent(sweep, slots[i]) && Handled(before, after, slots[i], event) && Settles(before, after)
    requires after.lookups == before.lookups
    ensures Sweeping(start, after, slots, i + 1, sweep)
  {
    NextInSweep(start, before, slots, i, sweep);
    SweptMore(start, before, after, slots[..i], sweep, slots[i]);
    SettlesTransitive(start, before, after);
    Grow(slots, i);
  }

  // ---------------------------------------------------------------- receive buffers

  /** A receive that the kernel has completed into a buffer, not yet handled. */
  datatype Filled = Filled(id: nat, data: Bytes)

  predicate IsReceive(op: Op) { op.id.kind.Read? || op.id.kind.ProxyRead? }

  /** The lent buffers are exactly those of completed receives, one each, and still hold what was received. */
  ghost predicate Filling(filled: map<Op, Filled>, inflight: multiset<Op>, buffers: seq<Bytes>, lent: set<nat>) {
    && (forall op | op in filled ::
          op in inflight && IsReceive(op) && filled[op].id in lent && Delivers(filled[op], buffers))
    && (forall a, b | a in filled && b in filled && a != b :: filled[a].id != filled[b].id)
    && (forall id | id in lent :: exists op :: op in filled && filled[op].id == id)
  }

  ghost predicate Delivers(f: Filled, buffers: seq<Bytes>) {
    f.id < |buffers| && f.data != "" && f.data <= buffers[f.id]
  }

  lemma FillingAfterFill(filled: map<Op, Filled>, inflight: multiset<Op>, buffers: seq<Bytes>, lent: set<nat>,
                         op: Op, f: Filled, after: seq<Bytes>)
    requires Filling(filled, inflight, buffers, lent) && op in inflight && op !in filled && IsReceive(op)
    requires f.id !in lent && Delivers(f, after) && |after| == |buffers|
    requires forall id | 0 <= id < |buffers| && id != f.id :: after[id] == buffers[id]
    ensures Filling(filled[op := f], inflight, after, lent + {f.id})
  {
    var more := filled[op := f];
    forall id | id in lent + {f.id} ensures exists o :: o in more && more[o].id == id {
      if id == f.id {
        assert op in more && more[op].id == id;
      } else {
        var o :| o in filled && filled[o].id == id;
        assert o in more && more[o].id == id;
      }
    }
  }

  lemma FillingAfterRelease(filled: map<Op, Filled>, inflight: multiset<Op>, buffers: seq<Bytes>, lent: set<nat>,
                            op: Op, after: multiset<Op>)
    requires Filling(filled, inflight, buffers, lent) && op in filled
    requires forall other | other in inflight && other != op :: other in after
    ensures Filling(filled - {op}, after, buffers, lent - {filled[op].id})
  {
    var fewer := filled - {op};
    forall id | id in lent - {filled[op].id} ensures exists o :: o in fewer && fewer[o].id == id {
      var o :| o in filled && filled[o].id == id;
      assert o in fewer && fewer[o].id == id;
    }
  }

  lemma FillingKept(
      filled: map<Op, Filled>, inflight: multiset<Op>, buffers: seq<Bytes>, lent: set<nat>, after: multiset<Op>)
    requires Filling(filled, inflight, buffers, lent)
    requires forall op | op in inflight && op in filled :: op in after
    ensures Filling(filled, after, buffers, lent)
  {
  }

  /** The operation `op` has been handled and its buffer, if any, released. */
  lemma FillingAfterDispatch(filled: map<Op, Filled>, inflight: multiset<Op>, buffers: seq<Bytes>, lent: set<nat>,
                             op: Op, id: Option<nat>, after: multiset<Op>, released: set<nat>)
    requires Filling(filled, inflight, buffers, lent)
    requires id == if op in filled then Some(filled[op].id) else None
    requires released == lent - (if id.Some? then {id.value} else {})
    requires forall other | other in inflight && other != op :: other in after
    ensures Filling(filled - {op}, after, buffers, released)
  {
    assert op !in filled ==> released == lent;
    if op in filled {
      FillingAfterRelease(filled, inflight, buffers, lent, op, after);
    } else {
      assert filled - {op} == filled;
      FillingKept(filled, inflight, buffers, lent, after);
    }
  }

  /** There are as many lent buffers as completed receives. */
  lemma {:induction false} AsManyLent(filled: map<Op, Filled>, lent: set<nat>)
    requires forall op | op in filled :: filled[op].id in lent
    requires forall a, b | a in filled && b in filled && a != b :: filled[a].id != filled[b].id
    requires forall id | id in lent :: exists op :: op in filled && filled[op].id == id
    ensures |filled| == |lent|
    decreases |lent|
  {
    if lent != {} {
      var id :| id in lent;
      var op :| op in filled && filled[op].id == id;
      var fewer, rest := filled - {op}, lent - {id};
      assert |fewer| == |filled| - 1 by {
        assert fewer.Keys == filled.Keys - {op};
        assert |fewer.Keys| == |fewer| && |filled.Keys| == |filled|;
      }
      forall other | other in rest ensures exists o :: o in fewer && fewer[o].id == other {
        var o :| o in filled && filled[o].id == other;
        assert o in fewer && fewer[o].id == other;
      }
      AsManyLent(fewer, rest);
    } else {
      assert filled == map[];
    }
  }

  /** Once every completed receive is handled, no buffer is lent. */
  lemma NoneFilled(filled: map<Op, Filled>, inflight: multiset<Op>, buffers: seq<Bytes>, lent: set<nat>)
    requires Filling(filled, inflight, buffers, lent) && filled == map[]
    ensures lent == {}
  {
  }

  /** No connection was added and no slot taken over. */
  ghost predicate Shrunk(before: World, after: World) {
    after.connections.Keys <= before.connections.Keys && after.occupations == before.occupations
  }

  lemma CompletedShrinks(before: World, after: World, op: Op, event: Event)
    requires Sound(before) && Completed(before, after, op, event)
    ensures Shrunk(before, after) && |after.connections| <= |before.connections|
  {
    HandledMeans(before, after, op.id.slot, event);
    BecomesShrinks(before, after, op.id.slot, Step(before.setup, before.exchanges[op.id.slot], event));
  }

  lemma BecomesShrinks(before: World, after: World, slot: nat, e: Exchange)
    requires Consistent(before, None) && Consistent(after, None) && slot in before.exchanges
      && Becomes(before, after, slot, e)
    ensures after.connections.Keys <= before.connections.Keys && |after.connections| <= |before.connections|
    ensures after.exchanges.Keys <= before.exchanges.Keys
  {
    FewerConnections(before, after);
  }

  lemma FewerConnections(before: World, after: World)
    requires before.connections.Keys == before.exchanges.Keys && after.connections.Keys == after.exchanges.Keys
    requires after.exchanges.Keys <= before.exchanges.Keys
    ensures after.connections.Keys <= before.connections.Keys && |after.connections| <= |before.connections|
  {
    SubsetSize(after.connections.Keys, before.connections.Keys);
    assert |after.connections| == |after.connections.Keys| && |before.connections| == |before.connections.Keys|;
  }

  lemma SettlesShrinks(before: World, after: World)
    requires Sound(before) && Settles(before, after)
    ensures Shrunk(before, after) && |after.connections| <= |before.connections|
  {
    FewerConnections(before, after);
  }

  lemma OneMoreConnection(before: World, after: World, slot: nat, e: Exchange)
    requires before.connections.Keys == before.exchanges.Keys && after.connections.Keys == after.exchanges.Keys
    requires after.exchanges == before.exchanges[slot := e]
    ensures |after.connections| <= |before.connections| + 1
  {
    SubsetSize(after.connections.Keys - {slot}, before.connections.Keys);
    assert |after.connections| == |after.connections.Keys| && |before.connections| == |before.connections.Keys|;
  }

  /** A new record was put into a vacant slot and its first receive submitted. */
  ghost predicate Arrives(before: World, after: World, slot: nat) {
    && slot <= |before.generations| == |before.occupations|
    && exists c, gap, e :: Newcomer(before, slot, c) && Opens(before, gap, slot, c, e) && Lands(gap, after, slot, e)
  }

  ghost predicate Opens(before: World, gap: World, slot: nat, c: Connection, e: Exchange)
    requires slot <= |before.generations| == |before.occupations|
  {
    gap == Inserted(before, slot, c) && e == START
  }

  ghost predicate Newcomer(before: World, slot: nat, c: Connection) {
    c.generation == NextGeneration(URING_MODULUS, if slot >= |before.generations| then 0 else before.generations[slot])
  }

  ghost function NextOccupation(w: World, slot: nat): nat {
    if slot >= |w.occupations| then 1 else w.occupations[slot] + 1
  }

  /** The worker has one more connection, in the next occupation of a vacant slot. */
  ghost predicate Retained(before: World, after: World, slot: nat) {
    && Sound(after) && Progress(before, after) && |after.connections| <= |before.connections| + 1
    && (forall op | op in before.inflight :: op in after.inflight)
    && slot !in before.exchanges && after.exchanges == before.exchanges[slot := START]
    && after.setup == before.setup && after.connections - {slot} == before.connections
    && after.lookups == before.lookups && slot <= |before.occupations|
    && after.occupations == Bumped(before.occupations, slot, NextOccupation(before, slot))
  }

  lemma ArrivalIsRetained(before: World, after: World, slot: nat)
    requires Sound(before) && slot !in before.connections && Arrives(before, after, slot)
    ensures Retained(before, after, slot)
  {
    var c, gap, e :| Newcomer(before, slot, c) && Opens(before, gap, slot, c, e) && Lands(gap, after, slot, e);
    RetainedIsSound(before, gap, after, slot, c, e);
    OneMoreConnection(before, after, slot, e);
    ArrivedShape(before, gap, after, slot, c, e);
  }

  lemma ArrivedShape(before: World, gap: World, after: World, slot: nat, c: Connection, e: Exchange)
    requires slot !in before.connections && slot <= |before.generations| == |before.occupations|
    requires Opens(before, gap, slot, c, e) && Lands(gap, after, slot, e)
    ensures after.setup == before.setup && after.connections - {slot} == before.connections
    ensures after.lookups == before.lookups
    ensures after.occupations == Bumped(before.occupations, slot, NextOccupation(before, slot))
  {
    OthersAreKept(before.connections, slot, c, after.connections[slot]);
  }

  lemma OthersAreKept(connections: map<nat, Connection>, slot: nat, a: Connection, b: Connection)
    requires slot !in connections
    ensures connections[slot := a][slot := b] - {slot} == connections
  {
  }

  /** There is room for another connection. */
  ghost predicate HasRoom(w: World, maxConnections: nat, choice: nat) {
    |w.connections| < maxConnections && VacantSlot(w.connections, w.generations, choice) <= U32_MAX
  }

  /** There may have been one more connection. */
  ghost predicate Admitted(before: World, after: World, kept: bool, choice: nat) {
    if kept then Retained(before, after, VacantSlot(before.connections, before.generations, choice))
      else after == before
  }

  /** What was there has stayed or gone forward; nothing in flight was lost. */
  ghost predicate Grown(before: World, after: World) {
    Sound(after) && Progress(before, after) && forall op | op in before.inflight :: op in after.inflight
  }

  lemma NothingInFlight(w: World)
    requires Consistent(w, None) && w.connections == map[]
    ensures w.inflight == multiset{}
  {
    assert forall op | op in w.inflight :: op.id.slot in w.connections;
    assert forall op :: w.inflight[op] == 0;
  }

  lemma EmptyIsSound(w: World)
    requires w == World(w.setup, map[], map[], [], [], multiset{}, {})
    ensures Sound(w)
  {
  }

  // ---------------------------------------------------------------- when submission is possible

  /** A timeout with an operation in flight marks the connection and submits nothing. */
  predicate OnlyMarks(e: Exchange, event: Event) { event.Expired? && UpstreamPending(e.stage) }

  /** The operation that the connection's next stage waits for can be submitted. */
  ghost predicate CanSubmit(w: World, slot: nat, event: Event) {
    match Occupant(w, slot)
    case None => false
    case Some((_, e)) => InOrder(e) && (OnlyMarks(e, event) || Submittable(Step(w.setup, e, event)))
  }

  lemma SentSubmits(before: World, op: Op, result: int, ready: bool, next: Exchange)
    requires op.id.kind.Write? && Fresh(before, op)
    requires next == OnSent(before.exchanges[op.id.slot], result, ready)
    ensures CanSubmit(before, op.id.slot, Sent(result, ready)) == Submittable(next)
  {
    SentStep(before.setup, before.exchanges[op.id.slot], result, ready);
  }

  lemma ReceivedSubmits(before: World, op: Op, result: int, data: Bytes, plan: Plan, next: Exchange)
    requires op.id.kind.Read? && Fresh(before, op) && (result > 0 ==> |data| == result)
    requires next == OnReceived(before.setup, before.exchanges[op.id.slot], result, data, plan)
    ensures CanSubmit(before, op.id.slot, Received(result, data, plan)) == Submittable(next)
  {
    ReceivedStep(before.setup, before.exchanges[op.id.slot], result, data, plan);
  }

  lemma ConnectedSubmits(before: World, op: Op, result: int, failures: nat, next: Exchange)
    requires op.id.kind.ProxyConnect? && Fresh(before, op)
    requires next == OnConnected(before.setup, before.exchanges[op.id.slot], result, failures)
    ensures CanSubmit(before, op.id.slot, Connected(result, failures)) == Submittable(next)
  {
    ConnectedStep(before.setup, before.exchanges[op.id.slot], result, failures);
  }

  lemma RequestSentSubmits(before: World, op: Op, result: int, next: Exchange)
    requires op.id.kind.ProxyWrite? && Fresh(before, op)
    requires next == OnRequestSent(before.setup, before.exchanges[op.id.slot], result)
    ensures CanSubmit(before, op.id.slot, RequestSent(result)) == Submittable(next)
  {
    RequestSentStep(before.setup, before.exchanges[op.id.slot], result);
  }

  lemma RespondedSubmits(before: World, op: Op, result: int, data: Bytes, next: Exchange)
    requires op.id.kind.ProxyRead? && Fresh(before, op) && (result > 0 ==> |data| == result)
    requires next == OnResponded(before.setup, before.exchanges[op.id.slot], result, data)
    ensures CanSubmit(before, op.id.slot, Responded(result, data)) == Submittable(next)
  {
    RespondedStep(before.setup, before.exchanges[op.id.slot], result, data);
  }

  lemma ResolvedSubmits(before: World, l: Lookup, answer: Option<seq<Address>>, failures: nat, next: Exchange)
    requires Consistent(before, None) && Wants(before, l)
    requires next == OnResolved(before.setup, before.exchanges[l.slot], answer, failures)
    ensures CanSubmit(before, l.slot, Resolved(answer, failures)) == Submittable(next)
  {
    assert Occupied(before, l.slot);
    SafeIsInOrder(before.setup, before.exchanges[l.slot]);
    ResolvedStep(before.setup, before.exchanges[l.slot], answer, failures);
  }

  lemma ExpiredSubmits(before: World, slot: nat, next: Exchange)
    requires Placed(before, slot) && InOrder(before.exchanges[slot]) && before.exchanges[slot].stage.Resolving?
    requires next == FailUpstream(before.setup, before.exchanges[slot], TimedOut(ResolvingPhase))
    ensures CanSubmit(before, slot, Expired) == Submittable(next)
  {
    ExpiredStep(before.setup, before.exchanges[slot]);
  }

  lemma FlaggedSubmits(before: World, slot: nat)
    requires Placed(before, slot) && InOrder(before.exchanges[slot]) && UpstreamPending(before.exchanges[slot].stage)
    ensures CanSubmit(before, slot, Expired)
  {
  }

  lemma PumpedSubmits(before: World, slot: nat, ready: bool, next: Exchange)
    requires Placed(before, slot) && InOrder(before.exchanges[slot]) && before.exchanges[slot].stage.AwaitingChunk?
    requires next == NextChunk(before.exchanges[slot], before.exchanges[slot].stage.stream, ready)
    ensures CanSubmit(before, slot, Pumped(ready)) == Submittable(next)
  {
    PumpedStep(before.setup, before.exchanges[slot], ready);
  }

  /** Some connection of a sweep cannot take its step. */
  ghost predicate SweepIsStuck(w: World, slots: seq<nat>, sweep: Sweep) {
    exists i :: 0 <= i < |slots| && !CanSubmit(w, slots[i], SweepEvent(sweep, slots[i]))
  }

  lemma StuckFromStart(start: World, now: World, slots: seq<nat>, i: nat, sweep: Sweep)
    requires Sweeping(start, now, slots, i, sweep) && i < |slots| && NoDuplicates(slots) && slots[i] in start.exchanges
    requires Consistent(start, None) && !CanSubmit(now, slots[i], SweepEvent(sweep, slots[i]))
    ensures SweepIsStuck(start, slots, sweep)
  {
    NextInSweep(start, now, slots, i, sweep);
    assert Placed(start, slots[i]) && Occupied(now, slots[i]);
  }
}
