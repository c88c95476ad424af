/** What a turn of the readiness worker does for whoever it is about: events and answers reach their connections,
    sockets are accepted while there is room, and every queue and every chore is served in every turn. */
module ReadinessEffects {
  import opened Common
  import opened Identifiers
  import opened Readiness
  import opened ReadinessTable
  import Exchange

  // ---------------------------------------------------------------- events and answers

  /** An event with the token of a registered socket of a live connection is dealt with as an event of that connection,
      on the side of its client or of its upstream. */
  lemma EventTakesEffect(
      before: Table, after: Table, s: Socket, event: ReadyEvent, index: nat, turn: Turn, limits: Limits)
    requires Good(before) && s in before.sockets && Live(before, s.id) && limits.listenerCount <= CONNECTION_TAG
    requires event.occupation == s.occupation && Some(event.token) == Token(s.id, s.role)
    requires EventDone(before, after, event, index, turn, limits)
    ensures var e, k, later := EntryAt(before, s.id.slot), turn.kernel(Handling(index))(s.id),
              turn.kernel(HandlingMore(index))(s.id);
            var next := match s.role
                        case Client => OnClientEvent(before.setup, e, before.draining, event, k, later)
                        case Upstream => OnUpstreamEvent(before.setup, e, event, k, later);
            Turns(before, after, s.id.slot, next)
  {
    TokensLeadBack(before, s, limits.listenerCount);
  }

  /** A listener's event brings in the sockets that wait there, until the worker drains. */
  lemma ListenerTakesEffect(
      before: Table, after: Table, event: ReadyEvent, index: nat, turn: Turn, limits: Limits)
    requires event.token < limits.listenerCount && event.token != CONTROL_TOKEN
    requires EventDone(before, after, event, index, turn, limits)
    ensures if event.readable && !before.draining
            then AcceptsDone(before, after, event.token, turn.accepted(index), limits.maxConnections)
            else after == before
  {
  }

  /** A connection begins the next occupation of a slot, reading its request, its socket registered for it. */
  ghost predicate Arrived(before: Table, after: Table, slot: nat, listener: nat) {
    && slot !in before.connections && Present(after, slot) && slot < |after.generations|
    && after.connections == before.connections[slot := NewConnection(after.generations[slot], listener)]
    && after.logs[slot] == EMPTY_LOG
    && after.occupations[slot] == (if slot < |before.occupations| then before.occupations[slot] + 1 else 1)
    && Socket(IdAt(after, slot), Client, after.occupations[slot]) in after.sockets
  }

  /** The slot that the slab gives: the one it chooses among those used before, or the next one. */
  ghost function SlotFor(t: Table, choice: nat): nat {
    if choice in t.connections || choice > |t.generations| then |t.generations| else choice
  }

  lemma ArrivalArrives(before: Table, slot: nat, listener: nat)
    requires slot !in before.connections && slot <= |before.generations| == |before.occupations|
    ensures Arrived(before, Arrival(before, slot, listener), slot, listener)
    ensures Arrival(before, slot, listener).connections - {slot} == before.connections
  {
  }

  /** Exactly when an accepted socket becomes a connection: there is room and a number for it, and it can be
      registered. */
  lemma AcceptedExactly(before: Table, after: Table, listener: nat, accepted: Accepted, limit: nat)
    requires Good(before) && AcceptDone(before, after, listener, accepted, limit)
    ensures var slot := SlotFor(before, accepted.choice);
            if |before.connections| < limit && slot <= SLOT_MASK && accepted.registers
            then Arrived(before, after, slot, listener)
            else after.connections == before.connections
  {
    var slot := SlotFor(before, accepted.choice);
    SlotIsVacant(before, accepted.choice);
    if |before.connections| < limit && slot <= SLOT_MASK {
      ArrivalArrives(before, slot, listener);
    }
  }

  lemma SlotIsVacant(t: Table, choice: nat)
    requires Good(t)
    ensures SlotFor(t, choice) !in t.connections && SlotFor(t, choice) <= |t.generations| == |t.occupations|
  {
    InRange(t);
  }

  /** An answer to the name that a connection waits for is dealt with as such. */
  lemma AnswerTakesEffect(before: Table, after: Table, slot: nat, answer: Answer, kernel: ConnectionId -> Kernel)
    requires Good(before) && slot in before.connections && before.connections[slot].phase.Resolving?
    requires Present(before, slot) && answer.id == IdAt(before, slot) && answer.occupation == before.occupations[slot]
    requires AnswerDone(before, after, answer, kernel)
    ensures Turns(before, after, slot,
              OnResolved(before.setup, EntryAt(before, slot), answer.addresses, Token(answer.id, Upstream).Some?,
                kernel(answer.id)))
  {
    assert EntryOk(before, slot) && Registered(before, slot);
  }

  // ---------------------------------------------------------------- every pass of a turn

  /** The passes of a turn, in order. */
  function Rank(job: Job): nat {
    match job
    case Chores(ExpireResolution, _) => 0
    case Chores(ExpireProxy, _) => 1
    case Chores(CloseIdle, _) => 2
    case Chores(PumpStream, _) => 3
    case Serve(ClientWrites) => 4
    case Serve(UpstreamWrites) => 5
    case Serve(UpstreamReads) => 6
  }

  function JobAt(rank: nat, turn: Turn): Job
    requires rank < 7
  {
    match rank
    case 0 => Chores(ExpireResolution, turn.due(ExpireResolution))
    case 1 => Chores(ExpireProxy, turn.due(ExpireProxy))
    case 2 => Chores(CloseIdle, turn.due(CloseIdle))
    case 3 => Chores(PumpStream, turn.due(PumpStream))
    case 4 => Serve(ClientWrites)
    case 5 => Serve(UpstreamWrites)
    case _ => Serve(UpstreamReads)
  }

  function MomentOf(job: Job): Moment {
    match job
    case Chores(chore, _) => Doing(chore)
    case Serve(queue) => Serving(queue)
  }

  ghost function TableBefore(rank: nat, s: Stages): Table
    requires rank <= 7
  {
    match rank
    case 0 => s.answered
    case 1 => s.expiredLookups
    case 2 => s.expiredProxies
    case 3 => s.closedIdle
    case 4 => s.pumped
    case 5 => s.wrote
    case 6 => s.wroteUpstream
    case _ => s.readUpstream
  }

  lemma PassAt(before: Table, after: Table, turn: Turn, limits: Limits, s: Stages, rank: nat)
    requires StagesDone(before, after, turn, limits, s) && rank < 7
    ensures var job := JobAt(rank, turn);
            Passing(TableBefore(rank, s), TableBefore(rank + 1, s), job, turn.kernel(MomentOf(job)), {})
  {
    if rank < 4 {
      ChoreAt(before, after, turn, limits, s, rank);
    } else {
      QueueAt(before, after, turn, limits, s, rank);
    }
  }

  lemma ChoreAt(before: Table, after: Table, turn: Turn, limits: Limits, s: Stages, rank: nat)
    requires StagesDone(before, after, turn, limits, s) && rank < 4
    ensures var job := JobAt(rank, turn);
            Passing(TableBefore(rank, s), TableBefore(rank + 1, s), job, turn.kernel(MomentOf(job)), {})
  {
    var chore := JobAt(rank, turn).chore;
    assert ChoreDone(TableBefore(rank, s), TableBefore(rank + 1, s), chore, turn);
  }

  lemma QueueAt(before: Table, after: Table, turn: Turn, limits: Limits, s: Stages, rank: nat)
    requires StagesDone(before, after, turn, limits, s) && 4 <= rank < 7
    ensures var job := JobAt(rank, turn);
            Passing(TableBefore(rank, s), TableBefore(rank + 1, s), job, turn.kernel(MomentOf(job)), {})
  {
    var queue := JobAt(rank, turn).queue;
    assert QueueDone(TableBefore(rank, s), TableBefore(rank + 1, s), queue, turn);
  }

  /** A pass leaves alone whom it does not visit. */
  lemma NotVisited(before: Table, after: Table, job: Job, kernel: ConnectionId -> Kernel, slot: nat)
    requires Passing(before, after, job, kernel, {}) && slot in before.connections && Present(before, slot)
    requires !Targeted(before, job, IdAt(before, slot))
    ensures slot in after.connections && Present(after, slot) && EntryAt(after, slot) == EntryAt(before, slot)
    ensures IdAt(after, slot) == IdAt(before, slot)
  {
    assert Passed(before, after, slot, job, kernel, {});
  }

  /** What makes a pass visit a connection does not change while the connection does not. */
  lemma StillTargeted(before: Table, after: Table, job: Job, slot: nat)
    requires Present(before, slot) && Present(after, slot) && EntryAt(after, slot) == EntryAt(before, slot)
    requires IdAt(after, slot) == IdAt(before, slot)
    ensures Targeted(after, job, IdAt(after, slot)) <==> Targeted(before, job, IdAt(before, slot))
  {
  }

  lemma {:induction false} Unvisited(
      begun: Table, after: Table, turn: Turn, limits: Limits, s: Stages, slot: nat, rank: nat)
    requires StagesDone(begun, after, turn, limits, s) && turn.answers(Answering) == [] && rank < 7
    requires Present(begun, slot)
    requires forall r | 0 <= r < rank :: !Targeted(begun, JobAt(r, turn), IdAt(begun, slot))
    ensures var t := TableBefore(rank, s);
            && Present(t, slot) && EntryAt(t, slot) == EntryAt(begun, slot) && IdAt(t, slot) == IdAt(begun, slot)
            && t.setup == begun.setup && t.draining == begun.draining
  {
    if rank > 0 {
      var t, job := TableBefore(rank - 1, s), JobAt(rank - 1, turn);
      Unvisited(begun, after, turn, limits, s, slot, rank - 1);
      PassAt(begun, after, turn, limits, s, rank - 1);
      StillTargeted(begun, t, job, slot);
      NotVisited(t, TableBefore(rank, s), job, turn.kernel(MomentOf(job)), slot);
    }
  }

  /** In every turn that begins with no answers, each connection for which a chore is due, or which is in a queue, takes
      exactly the step for the first of these: late names, late upstreams, idle clients, file chunks, then writes to the
      client, writes to the upstream and reads from it. */
  lemma TurnVisits(before: Table, after: Table, turn: Turn, limits: Limits, slot: nat, rank: nat)
    returns (now: Table)
    requires SomeTurn(before, after, turn, limits) && !turn.requested && turn.answers(Answering) == []
    requires Present(before, slot) && rank < 7 && Targeted(before, JobAt(rank, turn), IdAt(before, slot))
    requires forall r | 0 <= r < rank :: !Targeted(before, JobAt(r, turn), IdAt(before, slot))
    ensures var job := JobAt(rank, turn);
            Became(before, now, slot,
              VisitNext(job, before.setup, EntryAt(before, slot), before.draining,
                turn.kernel(MomentOf(job))(IdAt(before, slot))))
  {
    var s :| TurnDone(before, after, turn, limits, s);
    var job, t := JobAt(rank, turn), TableBefore(rank, s);
    Unvisited(before, after, turn, limits, s, slot, rank);
    PassAt(before, after, turn, limits, s, rank);
    StillTargeted(before, t, job, slot);
    now := TableBefore(rank + 1, s);
    assert Passed(t, now, slot, job, turn.kernel(MomentOf(job)), {});
  }
}
