/** The whole readiness worker as a table of connections: what one handler may change, the invariant, and what a pass
    over its queues, its own chores, the resolver's answers and the kernel's events do to it. */
module ReadinessTable {
  import opened Common
  import opened Identifiers
  import opened Readiness
  import Exchange

  /** A registered socket, and a name handed to the resolver: each for one occupation of a slot. They are never
      forgotten here, so that events and answers may come at any later time. */
  datatype Socket = Socket(id: ConnectionId, role: SocketRole, occupation: nat)

  datatype Ticket = Ticket(id: ConnectionId, occupation: nat)

  /** A connection that has left, and how. */
  datatype Departure = Departure(slot: nat, occupation: nat, cause: Cause, log: Log)

  datatype Table = Table(
    setup: Setup,
    connections: map<nat, Connection>,
    logs: map<nat, Log>,
    generations: seq<nat>,
    occupations: seq<nat>,
    writes: set<ConnectionId>,
    upstreamWrites: set<ConnectionId>,
    upstreamReads: set<ConnectionId>,
    draining: bool,
    sockets: set<Socket>,
    lookups: set<Ticket>,
    departures: seq<Departure>)

  ghost predicate Present(t: Table, slot: nat) {
    slot in t.connections && slot in t.logs && slot < |t.occupations|
  }

  ghost predicate Live(t: Table, id: ConnectionId) {
    Present(t, id.slot) && t.connections[id.slot].generation == id.generation
  }

  ghost function IdAt(t: Table, slot: nat): ConnectionId
    requires Present(t, slot)
  {
    ConnectionId(slot, t.connections[slot].generation)
  }

  ghost function EntryAt(t: Table, slot: nat): Entry
    requires Present(t, slot)
  {
    var id := IdAt(t, slot);
    Entry(t.connections[slot], t.logs[slot], id in t.writes, id in t.upstreamWrites, id in t.upstreamReads)
  }

  // ---------------------------------------------------------------- one connection's turn

  ghost predicate SameElsewhere(before: set<ConnectionId>, after: set<ConnectionId>, slot: nat) {
    forall id | id in before + after && id.slot != slot :: id in before && id in after
  }

  ghost predicate SameQueues(before: Table, after: Table, slot: nat) {
    && SameElsewhere(before.writes, after.writes, slot)
    && SameElsewhere(before.upstreamWrites, after.upstreamWrites, slot)
    && SameElsewhere(before.upstreamReads, after.upstreamReads, slot)
  }

  /** New sockets and lookups are for the connection itself. */
  ghost predicate Issues(before: Table, after: Table, id: ConnectionId, occupation: nat) {
    && before.sockets <= after.sockets && before.lookups <= after.lookups
    && (forall s | s in after.sockets && s !in before.sockets ::
          s == Socket(id, Upstream, occupation) && Token(id, Upstream).Some?)
    && (forall l | l in after.lookups && l !in before.lookups :: l == Ticket(id, occupation))
  }

  /** What is waited for has been issued: a lookup when a name is wanted, a registration of the upstream's socket. */
  ghost predicate Wires(before: Connection, after: Connection, t: Table, id: ConnectionId, occupation: nat) {
    && (after.phase.Resolving? ==> before.phase.Resolving? || Ticket(id, occupation) in t.lookups)
    && (after.phase.Proxying? ==> before.phase.Proxying? || Socket(id, Upstream, occupation) in t.sockets)
  }

  /** One connection becomes `next`, or leaves; everything else stays as it is. */
  ghost predicate Turns(before: Table, after: Table, slot: nat, next: Next) {
    && Present(before, slot)
    && after.setup == before.setup && after.draining == before.draining
    && after.generations == before.generations && after.occupations == before.occupations
    && SameQueues(before, after, slot)
    && Issues(before, after, IdAt(before, slot), before.occupations[slot])
    && match next
       case Stays(e) =>
         && after.connections == before.connections[slot := e.conn] && after.logs == before.logs[slot := e.log]
         && EntryAt(after, slot) == e && after.departures == before.departures
         && Wires(before.connections[slot], e.conn, after, IdAt(before, slot), before.occupations[slot])
       case Leaves(cause, log) =>
         && after.connections == before.connections - {slot} && after.logs == before.logs - {slot}
         && after.departures == before.departures + [Departure(slot, before.occupations[slot], cause, log)]
       case Fails => false
  }

  lemma StaysPut(t: Table, slot: nat)
    requires Present(t, slot)
    ensures Turns(t, t, slot, Stays(EntryAt(t, slot)))
  {
    assert t.connections[slot := t.connections[slot]] == t.connections;
    assert t.logs[slot := t.logs[slot]] == t.logs;
  }

  /** Two turns of one connection are one. */
  lemma TurnsCompose(a: Table, b: Table, c: Table, slot: nat, e: Entry, next: Next)
    requires Turns(a, b, slot, Stays(e)) && Turns(b, c, slot, next)
      && e.conn.generation == a.connections[slot].generation
    ensures Turns(a, c, slot, next)
  {
    if next.Stays? {
      assert a.connections[slot := e.conn][slot := next.entry.conn] == a.connections[slot := next.entry.conn];
      assert a.logs[slot := e.log][slot := next.entry.log] == a.logs[slot := next.entry.log];
    } else {
      assert a.connections[slot := e.conn] - {slot} == a.connections - {slot};
      assert a.logs[slot := e.log] - {slot} == a.logs - {slot};
    }
  }

  // ---------------------------------------------------------------- invariant and progress

  /** The connection's sockets are registered, and the name it waits for has been asked for. */
  ghost predicate Registered(t: Table, slot: nat)
    requires Present(t, slot)
  {
    var id, occupation := IdAt(t, slot), t.occupations[slot];
    && Socket(id, Client, occupation) in t.sockets
    && (t.connections[slot].phase.Resolving? ==> Ticket(id, occupation) in t.lookups)
    && (t.connections[slot].phase.Proxying? ==> Socket(id, Upstream, occupation) in t.sockets)
  }

  ghost predicate EntryOk(t: Table, slot: nat) {
    && Present(t, slot) && slot < |t.generations| && t.occupations[slot] > 0
    && t.connections[slot].generation == t.generations[slot]
    && Ok(t.setup, EntryAt(t, slot), t.draining)
    && Registered(t, slot)
  }

  /** An identifier was given to an occupation that the slot has had. */
  ghost predicate Issued(t: Table, id: ConnectionId, occupation: nat) {
    && id.slot < |t.occupations| && 0 < occupation <= t.occupations[id.slot]
    && id.generation == GenerationAt(TOKEN_MODULUS, occupation)
  }

  ghost predicate Numbered(t: Table) {
    && |t.generations| == |t.occupations|
    && (forall i | 0 <= i < |t.generations| :: t.generations[i] == GenerationAt(TOKEN_MODULUS, t.occupations[i]))
    && (forall s | s in t.sockets :: Issued(t, s.id, s.occupation) && Token(s.id, s.role).Some?)
    && (forall l | l in t.lookups :: Issued(t, l.id, l.occupation))
  }

  /** Only a shutdown cuts a response short. */
  ghost predicate AllEndWell(departures: seq<Departure>, draining: bool) {
    forall i | 0 <= i < |departures| ::
      EndsWell(departures[i].cause, departures[i].log) && (departures[i].cause.CutShort? ==> draining)
  }

  ghost predicate Good(t: Table) {
    && t.connections.Keys == t.logs.Keys && Numbered(t) && AllEndWell(t.departures, t.draining)
    && (forall slot | slot in t.connections :: EntryOk(t, slot))
  }

  /** The connection of `slot` is the one that was there, and nothing that went through it is taken back. */
  ghost predicate Continued(before: Table, after: Table, slot: nat) {
    && slot in before.logs && slot in after.logs
    && slot < |before.occupations| && slot < |after.occupations| && before.occupations[slot] == after.occupations[slot]
    && Extends(before.logs[slot], after.logs[slot])
  }

  ghost predicate Newer(before: Table, after: Table, slot: nat) {
    && slot < |after.occupations|
    && (slot < |before.occupations| ==> before.occupations[slot] < after.occupations[slot])
  }

  /** A stretch of a run: slots are only taken over by later occupations, and by none while the worker drains. */
  ghost predicate Progress(before: Table, after: Table) {
    && after.setup == before.setup && |before.occupations| <= |after.occupations|
    && |before.generations| <= |after.generations|
    && before.departures <= after.departures
    && (forall slot | 0 <= slot < |before.occupations| :: before.occupations[slot] <= after.occupations[slot])
    && (forall slot | slot in after.logs :: Continued(before, after, slot) || Newer(before, after, slot))
    && (before.draining ==>
          after.draining && after.logs.Keys <= before.logs.Keys && after.occupations == before.occupations)
  }

  lemma ProgressReflexive(t: Table)
    requires Good(t)
    ensures Progress(t, t)
  {
    assert forall slot | slot in t.logs :: EntryOk(t, slot);
  }

  lemma ProgressTransitive(a: Table, b: Table, c: Table)
    requires Progress(a, b) && Progress(b, c)
    ensures Progress(a, c)
  {
    forall slot | slot in c.logs ensures Continued(a, c, slot) || Newer(a, c, slot) {
      assert Continued(b, c, slot) || Newer(b, c, slot);
    }
  }

  lemma TurnsElsewhere(before: Table, after: Table, slot: nat, next: Next, other: nat)
    requires Turns(before, after, slot, next) && other != slot && Present(before, other)
    ensures Present(after, other) && EntryAt(after, other) == EntryAt(before, other)
    ensures EntryOk(before, other) ==> EntryOk(after, other) && Continued(before, after, other)
  {
  }

  lemma TurnedSlot(before: Table, after: Table, slot: nat, next: Next)
    requires EntryOk(before, slot) && Turns(before, after, slot, next)
    requires Keeps(before.setup, EntryAt(before, slot), next, before.draining)
    ensures next.Stays? ==> EntryOk(after, slot) && Continued(before, after, slot)
    ensures next.Leaves? ==> EndsWell(next.cause, next.log) && (next.cause.CutShort? ==> before.draining)
  {
  }

  lemma TurnedNumbers(before: Table, after: Table, slot: nat, next: Next)
    requires Numbered(before) && EntryOk(before, slot) && Turns(before, after, slot, next)
    ensures Numbered(after)
  {
    assert Issued(before, IdAt(before, slot), before.occupations[slot]);
  }

  lemma TurnedDepartures(before: Table, after: Table, slot: nat, next: Next)
    requires AllEndWell(before.departures, before.draining) && Turns(before, after, slot, next)
    requires next.Leaves? ==> EndsWell(next.cause, next.log) && (next.cause.CutShort? ==> before.draining)
    ensures AllEndWell(after.departures, after.draining) && before.departures <= after.departures
  {
  }

  /** A turn that keeps its own connection in order keeps the whole worker in order. */
  lemma TurnKeeps(before: Table, after: Table, slot: nat, next: Next)
    requires Good(before) && Turns(before, after, slot, next)
    requires Keeps(before.setup, EntryAt(before, slot), next, before.draining)
    ensures Good(after) && Progress(before, after)
  {
    assert EntryOk(before, slot);
    TurnedSlot(before, after, slot, next);
    TurnedNumbers(before, after, slot, next);
    TurnedDepartures(before, after, slot, next);
    forall other | other in after.connections ensures EntryOk(after, other) && Continued(before, after, other) {
      if other != slot {
        assert EntryOk(before, other);
        TurnsElsewhere(before, after, slot, next, other);
      }
    }
  }

  /** What it means to have the invariant in every state: the theorems for one connection. */
  lemma EveryConnection(t: Table, slot: nat)
    requires Good(t) && slot in t.connections
    ensures Present(t, slot)
    ensures var e := EntryAt(t, slot);
            && (e.log.fromUpstream != "" ==> e.conn.phase.Proxying? && e.log.responses == [])
            && (e.conn.phase.WritingResponse? ==> e.conn.writeOffset <= |e.conn.writeBuffer| && e.log.responses != [])
            && (e.conn.phase.WritingResponse? && |e.log.responses| == 1 ==>
                  e.log.responses[0] == e.log.toClient + Unsent(e))
            && (e.conn.phase.Proxying? ==>
                  && e.conn.writeOffset <= |e.conn.writeBuffer| <= READ_SIZE
                  && e.log.fromUpstream == e.log.toClient + e.conn.writeBuffer[e.conn.writeOffset..]
                  && e.log.toUpstream <= e.conn.phase.proxy.requestBuffer)
            && WakesUp(e) && Registered(t, slot)
            && (e.conn.phase.Reading? && !e.log.readArmed ==> e.log.readsSpent)
            && (e.conn.phase.Proxying? && Forgotten(e) ==> e.log.writesSpent)
            && (t.draining ==> e.conn.staticStream.Some? || e.conn.writeOffset < |e.conn.writeBuffer|)
  {
    assert EntryOk(t, slot);
  }

  /** And for every connection that has left: the end of the upstream's response closed it only when nothing received
      was unsent; a response of the server's own was delivered only in full, head and all, unless another one displaced
      it; nothing is cut short but by a shutdown; and whatever the reason, the client got a prefix of what came from the
      upstream, or of the response. */
  lemma EveryDeparture(t: Table, d: Departure)
    requires Good(t) && d in t.departures
    ensures d.cause.UpstreamEnded? ==> d.log.toClient == d.log.fromUpstream
    ensures d.cause.Delivered? ==> d.log.responses != [] && d.log.fromUpstream == ""
    ensures d.cause.Delivered? && |d.log.responses| == 1 ==> d.log.toClient == d.log.responses[0]
    ensures |d.log.responses| == 1 ==> d.log.toClient <= d.log.responses[0]
    ensures d.cause.CutShort? ==> t.draining && d.log.toClient == d.log.fromUpstream
    ensures d.log.fromUpstream != "" ==> d.log.toClient <= d.log.fromUpstream && d.log.responses == []
  {
    var i :| 0 <= i < |t.departures| && t.departures[i] == d;
    assert EndsWell(t.departures[i].cause, t.departures[i].log);
  }

  /** An identifier that was issued for one occupation of a slot names no other, as long as the slot has been taken over
      fewer than 2^30 - 1 times since. */
  lemma IdentifierNamesItsOccupation(t: Table, id: ConnectionId, occupation: nat)
    requires Good(t) && Live(t, id) && Issued(t, id, occupation)
    requires t.occupations[id.slot] - occupation < TOKEN_MODULUS - 1
    ensures occupation == t.occupations[id.slot]
  {
    assert EntryOk(t, id.slot);
    SameGeneration(TOKEN_MODULUS, occupation, t.occupations[id.slot]);
  }

  // ---------------------------------------------------------------- passes over many connections

  datatype Queue = ClientWrites | UpstreamWrites | UpstreamReads

  ghost function InQueue(t: Table, queue: Queue): set<ConnectionId> {
    match queue
    case ClientWrites => t.writes
    case UpstreamWrites => t.upstreamWrites
    case UpstreamReads => t.upstreamReads
  }

  /** The identifier is taken from a queue. */
  ghost function TakenFrom(t: Table, queue: Queue, id: ConnectionId): Table {
    match queue
    case ClientWrites => t.(writes := t.writes - {id})
    case UpstreamWrites => t.(upstreamWrites := t.upstreamWrites - {id})
    case UpstreamReads => t.(upstreamReads := t.upstreamReads - {id})
  }

  ghost function Dequeued(e: Entry, queue: Queue): Entry {
    match queue
    case ClientWrites => e.(writeQueued := false)
    case UpstreamWrites => e.(upstreamWriteQueued := false)
    case UpstreamReads => e.(upstreamReadQueued := false)
  }

  /** What serving a queue does to a connection just taken from it. */
  ghost function OnQueued(setup: Setup, e: Entry, queue: Queue, draining: bool, k: Kernel): Next {
    match queue
    case ClientWrites => if WriteInRange(e) then OnWritable(e, draining, k) else Stays(e)
    case UpstreamWrites => if RequestInRange(e) then OnUpstreamWritable(setup, e, k) else Stays(e)
    case UpstreamReads => OnUpstreamReadable(setup, e, k)
  }

  lemma WriteQueuedKeeps(setup: Setup, e: Entry, draining: bool, k: Kernel)
    requires Ok(setup, e, draining)
    ensures Keeps(setup, e, OnQueued(setup, e.(writeQueued := false), ClientWrites, draining, k), draining)
  {
    QueuedIsOk(setup, e, draining);
    assert e.(writeQueued := false).(writeQueued := true) == e.(writeQueued := true);
    OnWritableKeeps(setup, e.(writeQueued := false), draining, k);
  }

  lemma UpstreamWriteQueuedKeeps(setup: Setup, e: Entry, draining: bool, k: Kernel)
    requires Ok(setup, e, draining)
    ensures Keeps(setup, e, OnQueued(setup, e.(upstreamWriteQueued := false), UpstreamWrites, draining, k), draining)
  {
    QueuedIsOk(setup, e, draining);
    assert e.(upstreamWriteQueued := false).(upstreamWriteQueued := true) == e.(upstreamWriteQueued := true);
    OnUpstreamWritableKeeps(setup, e.(upstreamWriteQueued := false), k, draining);
  }

  lemma UpstreamReadQueuedKeeps(setup: Setup, e: Entry, draining: bool, k: Kernel)
    requires Ok(setup, e, draining)
    ensures Keeps(setup, e, OnQueued(setup, e.(upstreamReadQueued := false), UpstreamReads, draining, k), draining)
  {
    QueuedIsOk(setup, e, draining);
    assert e.(upstreamReadQueued := false).(upstreamReadQueued := true) == e.(upstreamReadQueued := true);
    OnUpstreamReadableKeeps(setup, e.(upstreamReadQueued := false), k, draining);
  }

  lemma OnQueuedKeeps(setup: Setup, e: Entry, queue: Queue, draining: bool, k: Kernel)
    requires Ok(setup, e, draining)
    ensures Keeps(setup, e, OnQueued(setup, Dequeued(e, queue), queue, draining, k), draining)
  {
    match queue {
      case ClientWrites => WriteQueuedKeeps(setup, e, draining, k);
      case UpstreamWrites => UpstreamWriteQueuedKeeps(setup, e, draining, k);
      case UpstreamReads => UpstreamReadQueuedKeeps(setup, e, draining, k);
    }
  }

  lemma TakenEntry(t: Table, queue: Queue, id: ConnectionId)
    requires Live(t, id)
    ensures Live(TakenFrom(t, queue, id), id)
    ensures EntryAt(TakenFrom(t, queue, id), id.slot) == Dequeued(EntryAt(t, id.slot), queue)
    ensures SameQueues(t, TakenFrom(t, queue, id), id.slot)
  {
  }

  /** Taking a connection from a queue and serving it is one turn. */
  lemma TakenTurns(before: Table, queue: Queue, id: ConnectionId, after: Table, next: Next)
    requires Live(before, id) && Turns(TakenFrom(before, queue, id), after, id.slot, next)
    ensures Turns(before, after, id.slot, next)
  {
    TakenEntry(before, queue, id);
  }

  lemma ServedTurns(before: Table, queue: Queue, id: ConnectionId, after: Table, next: Next, k: Kernel)
    requires Good(before) && Live(before, id)
    requires next == OnQueued(before.setup, Dequeued(EntryAt(before, id.slot), queue), queue, before.draining, k)
    requires Turns(TakenFrom(before, queue, id), after, id.slot, next)
    ensures Turns(before, after, id.slot, next) && Good(after) && Progress(before, after)
  {
    assert EntryOk(before, id.slot);
    TakenTurns(before, queue, id, after, next);
    OnQueuedKeeps(before.setup, EntryAt(before, id.slot), queue, before.draining, k);
    TurnKeeps(before, after, id.slot, next);
  }

  /** What is in order of a connection just taken from a queue. */
  lemma TakenInRange(before: Table, queue: Queue, id: ConnectionId)
    requires Good(before) && Live(before, id)
    ensures var t := TakenFrom(before, queue, id);
            && Live(t, id) && EntryAt(t, id.slot) == Dequeued(EntryAt(before, id.slot), queue)
            && WriteInRange(EntryAt(t, id.slot)) && RequestInRange(EntryAt(t, id.slot))
  {
    assert EntryOk(before, id.slot);
    TakenEntry(before, queue, id);
  }

  /** An identifier that names no connection can be taken from a queue at any time. */
  lemma StaleTaken(before: Table, queue: Queue, id: ConnectionId)
    requires Good(before) && !Live(before, id)
    ensures Good(TakenFrom(before, queue, id)) && Progress(before, TakenFrom(before, queue, id))
  {
    var after := TakenFrom(before, queue, id);
    forall slot | slot in after.connections ensures EntryOk(after, slot) && Continued(before, after, slot) {
      assert EntryOk(before, slot);
      assert EntryAt(after, slot) == EntryAt(before, slot);
    }
    ProgressReflexive(before);
  }

  /** A pass of the worker: over one of its queues, or over the connections for which one of its chores is due. */
  datatype Job = Serve(queue: Queue) | Chores(chore: Chore, due: set<nat>)

  /** What the pass is to do to the connection of a slot. */
  ghost function NextFor(job: Job, t: Table, slot: nat, kernel: ConnectionId -> Kernel): Next
    requires Present(t, slot)
  {
    var e, k := EntryAt(t, slot), kernel(IdAt(t, slot));
    if Targeted(t, job, IdAt(t, slot)) then VisitNext(job, t.setup, e, t.draining, k) else Stays(e)
  }

  lemma NextForKeeps(job: Job, t: Table, slot: nat, kernel: ConnectionId -> Kernel)
    requires EntryOk(t, slot)
    ensures Keeps(t.setup, EntryAt(t, slot), NextFor(job, t, slot, kernel), t.draining)
  {
    var e, k := EntryAt(t, slot), kernel(IdAt(t, slot));
    StaysKeeps(t.setup, e, t.draining);
    if job.Serve? {
      OnQueuedKeeps(t.setup, e, job.queue, t.draining, k);
    } else {
      OnChoreKeeps(t.setup, e, job.chore, k, t.draining);
    }
  }

  /** What a pass does to a connection that it visits. */
  ghost function VisitNext(job: Job, setup: Setup, e: Entry, draining: bool, k: Kernel): Next {
    match job
    case Serve(queue) => OnQueued(setup, Dequeued(e, queue), queue, draining, k)
    case Chores(chore, _) => OnChore(setup, e, chore, k)
  }

  /** A pass visits this identifier. */
  ghost predicate Targeted(t: Table, job: Job, id: ConnectionId) {
    match job
    case Serve(queue) => id in InQueue(t, queue)
    case Chores(_, due) => id.slot in due
  }

  /** The connection of `slot` has become `next`. */
  ghost predicate Became(before: Table, after: Table, slot: nat, next: Next)
    requires Present(before, slot)
  {
    match next
    case Stays(e) => Present(after, slot) && EntryAt(after, slot) == e
    case Leaves(cause, log) =>
      slot !in after.connections && Departure(slot, before.occupations[slot], cause, log) in after.departures
    case Fails => false
  }

  /** A pass that has done its job to every connection but those of `left`, and nothing else. */
  ghost predicate Passing(
      before: Table, after: Table, job: Job, kernel: ConnectionId -> Kernel, left: set<ConnectionId>) {
    && after.setup == before.setup && after.draining == before.draining && after.occupations == before.occupations
    && after.connections.Keys <= before.connections.Keys
    && (forall slot | slot in before.connections :: Passed(before, after, slot, job, kernel, left))
  }

  ghost predicate Passed(
      before: Table, after: Table, slot: nat, job: Job, kernel: ConnectionId -> Kernel, left: set<ConnectionId>)
  {
    && Present(before, slot)
    && (slot in after.connections ==> after.connections[slot].generation == before.connections[slot].generation)
    && var next := if IdAt(before, slot) in left then Stays(EntryAt(before, slot))
      else NextFor(job, before, slot, kernel);
       Became(before, after, slot, next)
  }

  /** Some identifiers include every connection that a pass is for, and nothing else. */
  ghost predicate Covers(t: Table, job: Job, ids: set<ConnectionId>) {
    && (forall id | id in ids :: Targeted(t, job, id))
    && (forall slot | Present(t, slot) && Targeted(t, job, IdAt(t, slot)) :: IdAt(t, slot) in ids)
  }

  lemma PassBegins(t: Table, job: Job, kernel: ConnectionId -> Kernel, left: set<ConnectionId>)
    requires Good(t) && Covers(t, job, left)
    ensures Passing(t, t, job, kernel, left)
  {
    forall slot | slot in t.connections ensures Passed(t, t, slot, job, kernel, left) {
      assert EntryOk(t, slot);
    }
  }

  /** The connection to be visited next is as it was. */
  lemma NotYetPassed(
      before: Table, now: Table, job: Job, kernel: ConnectionId -> Kernel, left: set<ConnectionId>, id: ConnectionId)
    requires Passing(before, now, job, kernel, left) && id in left
    ensures Live(before, id) ==> Live(now, id) && EntryAt(now, id.slot) == EntryAt(before, id.slot)
    ensures Live(now, id) ==> Live(before, id)
  {
    if id.slot in before.connections {
      assert Passed(before, now, id.slot, job, kernel, left);
    }
  }

  lemma PassedElsewhere(
      before: Table, now: Table, after: Table, job: Job, kernel: ConnectionId -> Kernel, left: set<ConnectionId>,
      id: ConnectionId, next: Next, slot: nat)
    requires Passed(before, now, slot, job, kernel, left) && slot != id.slot && Turns(now, after, id.slot, next)
    ensures Passed(before, after, slot, job, kernel, left - {id})
  {
    if slot in now.connections {
      TurnsElsewhere(now, after, id.slot, next, slot);
    }
  }

  /** One more connection has been visited. */
  lemma PassGoesOn(
      before: Table, now: Table, after: Table, job: Job, kernel: ConnectionId -> Kernel, left: set<ConnectionId>,
      id: ConnectionId)
    requires Passing(before, now, job, kernel, left) && id in left && Live(before, id) && EntryOk(before, id.slot)
    requires Turns(now, after, id.slot, NextFor(job, before, id.slot, kernel))
    ensures Passing(before, after, job, kernel, left - {id})
  {
    var next := NextFor(job, before, id.slot, kernel);
    NextForKeeps(job, before, id.slot, kernel);
    assert Passed(before, now, id.slot, job, kernel, left);
    forall slot | slot in before.connections ensures Passed(before, after, slot, job, kernel, left - {id}) {
      if slot != id.slot {
        assert Passed(before, now, slot, job, kernel, left);
        PassedElsewhere(before, now, after, job, kernel, left, id, next, slot);
      }
    }
  }

  lemma SkippedStays(t: Table, job: Job, id: ConnectionId, after: Table, slot: nat)
    requires !Live(t, id) && (after == t || (job.Serve? && after == TakenFrom(t, job.queue, id)))
    requires Present(t, slot)
    ensures Present(after, slot) && EntryAt(after, slot) == EntryAt(t, slot)
  {
  }

  /** An identifier without a connection was taken from the queue. */
  lemma PassSkips(
      before: Table, now: Table, after: Table, job: Job, kernel: ConnectionId -> Kernel, left: set<ConnectionId>,
      id: ConnectionId)
    requires Passing(before, now, job, kernel, left) && !Live(before, id) && !Live(now, id)
    requires after == now || (job.Serve? && after == TakenFrom(now, job.queue, id))
    ensures Passing(before, after, job, kernel, left - {id})
  {
    forall slot | slot in before.connections ensures Passed(before, after, slot, job, kernel, left - {id}) {
      assert Passed(before, now, slot, job, kernel, left);
      if Present(now, slot) {
        SkippedStays(now, job, id, after, slot);
      }
    }
  }

  lemma PassedAtEnd(before: Table, after: Table, slot: nat, queue: Queue, kernel: ConnectionId -> Kernel)
    requires Passing(before, after, Serve(queue), kernel, {}) && slot in before.connections
    requires Present(before, slot) && IdAt(before, slot) in InQueue(before, queue)
    ensures Became(before, after, slot,
              OnQueued(before.setup, Dequeued(EntryAt(before, slot), queue), queue, before.draining,
                kernel(IdAt(before, slot))))
  {
    assert Passed(before, after, slot, Serve(queue), kernel, {});
  }

  /** No lost wake-up: whoever has unsent bytes of a response, and no edge coming, is in the queue, and the next pass
      over the queue writes for it. */
  lemma NoLostWrite(before: Table, after: Table, slot: nat, kernel: ConnectionId -> Kernel)
    requires Good(before) && slot in before.connections && Passing(before, after, Serve(ClientWrites), kernel, {})
    requires before.connections[slot].phase.WritingResponse? && !before.connections[slot].Drained()
    requires slot in before.logs && !before.logs[slot].clientArmed
    ensures Present(before, slot) && WriteInRange(EntryAt(before, slot))
    ensures Became(before, after, slot,
              OnWritable(EntryAt(before, slot).(writeQueued := false), before.draining, kernel(IdAt(before, slot))))
  {
    assert EntryOk(before, slot);
    PassedAtEnd(before, after, slot, ClientWrites, kernel);
  }

  /** The same for a request on its way to its upstream. */
  lemma NoLostUpstreamWrite(before: Table, after: Table, slot: nat, kernel: ConnectionId -> Kernel)
    requires Good(before) && slot in before.connections && Passing(before, after, Serve(UpstreamWrites), kernel, {})
    requires before.connections[slot].phase.Proxying? && before.connections[slot].phase.proxy.phase.WritingRequest?
    requires slot in before.logs && !before.logs[slot].upstreamArmed
    ensures Present(before, slot) && RequestInRange(EntryAt(before, slot))
    ensures Became(before, after, slot,
              OnUpstreamWritable(before.setup, EntryAt(before, slot).(upstreamWriteQueued := false),
                kernel(IdAt(before, slot))))
  {
    assert EntryOk(before, slot);
    PassedAtEnd(before, after, slot, UpstreamWrites, kernel);
  }

  /** And for a response that the upstream has more of. */
  lemma NoLostUpstreamRead(before: Table, after: Table, slot: nat, kernel: ConnectionId -> Kernel)
    requires Good(before) && slot in before.connections && Passing(before, after, Serve(UpstreamReads), kernel, {})
    requires AwaitsUpstream(before.connections[slot]) && slot in before.logs && !before.logs[slot].upstreamArmed
    ensures Present(before, slot)
    ensures Became(before, after, slot,
              OnUpstreamReadable(before.setup, EntryAt(before, slot).(upstreamReadQueued := false),
                kernel(IdAt(before, slot))))
  {
    assert EntryOk(before, slot);
    PassedAtEnd(before, after, slot, UpstreamReads, kernel);
  }

  lemma NextForFails(job: Job, t: Table, slot: nat, kernel: ConnectionId -> Kernel)
    requires Present(t, slot) && NextFor(job, t, slot, kernel).Fails?
    ensures !kernel(IdAt(t, slot)).registersClient
  {
  }

  // ---------------------------------------------------------------- answers and events

  /** An answer of the resolver to a lookup of one occupation of a slot. */
  datatype Answer = Answer(id: ConnectionId, occupation: nat, addresses: Option<seq<nat>>)

  /** An accepted connection: the slot the slab would use, and whether its socket can be registered. */
  datatype Accepted = Accepted(choice: nat, registers: bool)

  ghost function AnswerNext(t: Table, answer: Answer, kernel: ConnectionId -> Kernel): Next
    requires Live(t, answer.id)
  {
    OnResolved(t.setup, EntryAt(t, answer.id.slot), answer.addresses, Token(answer.id, Upstream).Some?,
      kernel(answer.id))
  }

  /** An answer to a lookup that was made changes the connection that its identifier names, if there is one. */
  ghost predicate AnswerDone(before: Table, after: Table, answer: Answer, kernel: ConnectionId -> Kernel) {
    if Ticket(answer.id, answer.occupation) in before.lookups && Live(before, answer.id)
    then Turns(before, after, answer.id.slot, AnswerNext(before, answer, kernel))
    else after == before
  }

  lemma AnswerKeeps(before: Table, after: Table, answer: Answer, kernel: ConnectionId -> Kernel)
    requires Good(before) && AnswerDone(before, after, answer, kernel)
    ensures Good(after) && Progress(before, after)
  {
    if Ticket(answer.id, answer.occupation) in before.lookups && Live(before, answer.id) {
      var slot := answer.id.slot;
      assert EntryOk(before, slot);
      OnResolvedKeeps(before.setup, EntryAt(before, slot), answer.addresses, Token(answer.id, Upstream).Some?,
        kernel(answer.id), before.draining);
      TurnKeeps(before, after, slot, AnswerNext(before, answer, kernel));
    } else {
      ProgressReflexive(before);
    }
  }

  /** The answers have been dealt with, one after the other. */
  ghost predicate AnswersDone(before: Table, after: Table, answers: seq<Answer>, kernel: ConnectionId -> Kernel)
    decreases |answers|
  {
    if answers == [] then after == before
    else
      var n := |answers| - 1;
      exists now :: AnswersDone(before, now, answers[..n], kernel) && AnswerDone(now, after, answers[n], kernel)
  }

  lemma OneMoreAnswer(
      before: Table, now: Table, after: Table, answers: seq<Answer>, answer: Answer, kernel: ConnectionId -> Kernel)
    requires AnswersDone(before, now, answers, kernel) && AnswerDone(now, after, answer, kernel)
    ensures AnswersDone(before, after, answers + [answer], kernel)
  {
    var more := answers + [answer];
    assert more[..|more| - 1] == answers && more[|more| - 1] == answer;
  }

  /** The slab's choice of a vacant slot: one used before, or the next one. */
  ghost function Vacant(t: Table, choice: nat): nat {
    if choice in t.connections || choice > |t.generations| then |t.generations| else choice
  }

  /** The table with a new connection in the next occupation of a vacant slot, its socket registered. */
  ghost function Arrival(t: Table, slot: nat, listener: nat): Table
    requires slot <= |t.generations| == |t.occupations|
  {
    var isNew := slot == |t.generations|;
    var generation := NextGeneration(TOKEN_MODULUS, if isNew then 0 else t.generations[slot]);
    var occupation := if isNew then 1 else t.occupations[slot] + 1;
    t.(connections := t.connections[slot := NewConnection(generation, listener)],
       logs := t.logs[slot := EMPTY_LOG],
       generations := if isNew then t.generations + [generation] else t.generations[slot := generation],
       occupations := if isNew then t.occupations + [occupation] else t.occupations[slot := occupation],
       sockets := t.sockets + {Socket(ConnectionId(slot, generation), Client, occupation)})
  }

  lemma ArrivalElsewhere(before: Table, slot: nat, listener: nat, other: nat)
    requires EntryOk(before, other) && other != slot && slot <= |before.generations| == |before.occupations|
    ensures EntryOk(Arrival(before, slot, listener), other)
    ensures Continued(before, Arrival(before, slot, listener), other)
  {
    assert EntryAt(Arrival(before, slot, listener), other) == EntryAt(before, other);
  }

  lemma ArrivedSlot(before: Table, slot: nat, listener: nat)
    requires slot <= |before.generations| == |before.occupations| && !before.draining
    ensures EntryOk(Arrival(before, slot, listener), slot) && Newer(before, Arrival(before, slot, listener), slot)
  {
  }

  lemma ArrivalNumbers(before: Table, slot: nat, listener: nat)
    requires Numbered(before) && slot <= |before.generations| && slot <= SLOT_MASK
    ensures Numbered(Arrival(before, slot, listener))
  {
    var after := Arrival(before, slot, listener);
    var id := ConnectionId(slot, after.generations[slot]);
    TokenDefined(id, Client);
    forall s | s in after.sockets ensures Issued(after, s.id, s.occupation) && Token(s.id, s.role).Some? {
      if s in before.sockets {
        assert Issued(before, s.id, s.occupation);
      }
    }
    forall l | l in after.lookups ensures Issued(after, l.id, l.occupation) {
      assert Issued(before, l.id, l.occupation);
    }
  }

  lemma ArrivalIsGood(before: Table, slot: nat, listener: nat)
    requires Good(before) && slot !in before.connections && slot <= |before.generations| && slot <= SLOT_MASK
    requires !before.draining
    ensures Good(Arrival(before, slot, listener))
  {
    var after := Arrival(before, slot, listener);
    ArrivedSlot(before, slot, listener);
    ArrivalNumbers(before, slot, listener);
    forall other | other in after.connections ensures EntryOk(after, other) {
      if other != slot {
        assert EntryOk(before, other);
        ArrivalElsewhere(before, slot, listener, other);
      }
    }
  }

  lemma ArrivalKeeps(before: Table, slot: nat, listener: nat)
    requires Good(before) && slot !in before.connections && slot <= |before.generations| && slot <= SLOT_MASK
    requires !before.draining
    ensures Good(Arrival(before, slot, listener)) && Progress(before, Arrival(before, slot, listener))
  {
    var after := Arrival(before, slot, listener);
    ArrivalIsGood(before, slot, listener);
    ArrivedSlot(before, slot, listener);
    forall other | other in after.logs && other != slot ensures Continued(before, after, other) {
      assert EntryOk(before, other);
      ArrivalElsewhere(before, slot, listener, other);
    }
  }

  /** An accepted connection is kept unless there are too many, or its socket cannot be registered. */
  ghost predicate AcceptDone(before: Table, after: Table, listener: nat, accepted: Accepted, limit: nat) {
    var slot := Vacant(before, accepted.choice);
    if |before.connections| >= limit || slot > SLOT_MASK || |before.generations| != |before.occupations|
      then after == before
    else
      var arrived := Arrival(before, slot, listener);
      if accepted.registers then after == arrived else Turns(arrived, after, slot, Leaves(Aborted, EMPTY_LOG))
  }

  lemma InRange(t: Table)
    requires Good(t)
    ensures forall slot | slot in t.connections :: slot < |t.generations|
  {
    forall slot | slot in t.connections ensures slot < |t.generations| {
      assert EntryOk(t, slot);
    }
  }

  /** A new connection is gone again. */
  ghost predicate TurnedAway(arrived: Table, after: Table, slot: nat) {
    exists next :: next == Leaves(Aborted, EMPTY_LOG) && Turns(arrived, after, slot, next)
  }

  lemma AcceptIsDone(
      before: Table, arrived: Table, after: Table, listener: nat, accepted: Accepted, limit: nat, slot: nat)
    requires slot == Vacant(before, accepted.choice) && |before.connections| < limit && slot <= SLOT_MASK
    requires |before.generations| == |before.occupations| && arrived == Arrival(before, slot, listener)
    requires if accepted.registers then after == arrived else TurnedAway(arrived, after, slot)
    ensures AcceptDone(before, after, listener, accepted, limit)
  {
  }

  lemma AcceptKeeps(before: Table, after: Table, listener: nat, accepted: Accepted, limit: nat)
    requires Good(before) && !before.draining && AcceptDone(before, after, listener, accepted, limit)
    ensures Good(after) && Progress(before, after) && !after.draining
  {
    var slot := Vacant(before, accepted.choice);
    ProgressReflexive(before);
    if |before.connections| < limit && slot <= SLOT_MASK {
      InRange(before);
      var arrived := Arrival(before, slot, listener);
      ArrivalKeeps(before, slot, listener);
      if !accepted.registers {
        assert EntryOk(arrived, slot);
        TurnKeeps(arrived, after, slot, Leaves(Aborted, EMPTY_LOG));
        ProgressTransitive(before, arrived, after);
      }
    }
  }

  ghost predicate AcceptsDone(before: Table, after: Table, listener: nat, accepted: seq<Accepted>, limit: nat)
    decreases |accepted|
  {
    if accepted == [] then after == before
    else
      var n := |accepted| - 1;
      exists now ::
        AcceptsDone(before, now, listener, accepted[..n], limit) && AcceptDone(now, after, listener, accepted[n], limit)
  }

  lemma OneMoreAccepted(
      before: Table, now: Table, after: Table, listener: nat, done: seq<Accepted>, accepted: Accepted, limit: nat)
    requires AcceptsDone(before, now, listener, done, limit) && AcceptDone(now, after, listener, accepted, limit)
    ensures AcceptsDone(before, after, listener, done + [accepted], limit)
  {
    var more := done + [accepted];
    assert more[..|more| - 1] == done && more[|more| - 1] == accepted;
  }

  /** The moments of a turn at which the worker asks something of the environment: when it takes the resolver's answers,
      in each chore, in each queue, and in each event, once for writing and once for reading. */
  datatype Moment = Answering | Doing(chore: Chore) | Serving(queue: Queue) | Handling(event: nat) | HandlingMore(
    event: nat)

  /** One turn of the loop, as far as the environment has a say in it. */
  datatype Turn = Turn(
    requested: bool,
    deadline: bool,
    answers: Moment -> seq<Answer>,
    due: Chore -> set<nat>,
    kernel: Moment -> ConnectionId -> Kernel,
    events: seq<ReadyEvent>,
    accepted: nat -> seq<Accepted>)

  /** The fixed parts of a worker. */
  datatype Limits = Limits(listenerCount: nat, maxConnections: nat)

  ghost function EventNext(
      t: Table, id: ConnectionId, role: SocketRole, event: ReadyEvent, k: Kernel, later: Kernel): Next
    requires Live(t, id)
  {
    var e := EntryAt(t, id.slot);
    if role == Client then OnClientEvent(t.setup, e, t.draining, event, k, later)
    else OnUpstreamEvent(t.setup, e, event, k, later)
  }

  /** An event of a registered socket changes the connection that the identifier in its token names, if there is one. */
  ghost predicate SocketEventDone(
      before: Table, after: Table, id: ConnectionId, role: SocketRole, event: ReadyEvent, k: Kernel, later: Kernel)
  {
    if Socket(id, role, event.occupation) in before.sockets && Live(before, id)
    then Turns(before, after, id.slot, EventNext(before, id, role, event, k, later))
    else after == before
  }

  /** The event at an index among those of a turn. */
  ghost predicate EventDone(before: Table, after: Table, event: ReadyEvent, index: nat, turn: Turn, limits: Limits) {
    var at, later := Handling(index), HandlingMore(index);
    if event.token == CONTROL_TOKEN then AnswersDone(before, after, turn.answers(at), turn.kernel(at))
    else if event.token < limits.listenerCount then
      if event.readable && !before.draining
      then AcceptsDone(before, after, event.token, turn.accepted(index), limits.maxConnections) else after == before
    else
      match FromToken(event.token)
      case None => after == before
      case Some((id, role)) =>
        SocketEventDone(before, after, id, role, event, turn.kernel(at)(id), turn.kernel(later)(id))
  }

  lemma EventKeeps(
      before: Table, after: Table, id: ConnectionId, role: SocketRole, event: ReadyEvent, k: Kernel, later: Kernel)
    requires Good(before) && SocketEventDone(before, after, id, role, event, k, later)
    ensures Good(after) && Progress(before, after)
  {
    ProgressReflexive(before);
    if Socket(id, role, event.occupation) in before.sockets && Live(before, id) {
      assert EntryOk(before, id.slot);
      OnClientEventKeeps(before.setup, EntryAt(before, id.slot), before.draining, event, k, later);
      OnUpstreamEventKeeps(before.setup, EntryAt(before, id.slot), event, k, later, before.draining);
      TurnKeeps(before, after, id.slot, EventNext(before, id, role, event, k, later));
    }
  }

  /** The token of a registered socket leads back to it, and to neither a listener nor the control token. */
  lemma TokensLeadBack(t: Table, s: Socket, listeners: nat)
    requires Good(t) && s in t.sockets && listeners <= CONNECTION_TAG
    ensures Token(s.id, s.role).Some?
    ensures var token := Token(s.id, s.role).value;
            listeners <= token != CONTROL_TOKEN && FromToken(token) == Some((s.id, s.role))
  {
    FromTokenToken(s.id, s.role, listeners);
  }

  /** Stale-event safety: an event changes only the connection of the slot in its token, and that only if it is of the
      occupation that the socket was registered for, as long as the slot has been taken over fewer than 2^30 - 1 times
      since. */
  lemma StaleEventIsIgnored(
      before: Table, after: Table, id: ConnectionId, role: SocketRole, event: ReadyEvent, k: Kernel, later: Kernel)
    requires Good(before) && SocketEventDone(before, after, id, role, event, k, later) && after != before
    requires before.occupations[id.slot] - event.occupation < TOKEN_MODULUS - 1
    ensures Live(before, id) && event.occupation == before.occupations[id.slot]
    ensures forall other | other != id.slot && Present(before, other) ::
              Present(after, other) && EntryAt(after, other) == EntryAt(before, other)
  {
    assert Issued(before, id, event.occupation);
    IdentifierNamesItsOccupation(before, id, event.occupation);
    forall other | other != id.slot && Present(before, other)
      ensures Present(after, other) && EntryAt(after, other) == EntryAt(before, other)
    {
      TurnsElsewhere(before, after, id.slot, EventNext(before, id, role, event, k, later), other);
    }
  }

  /** The same for the resolver's answers. */
  lemma StaleAnswerIsIgnored(before: Table, after: Table, answer: Answer, kernel: ConnectionId -> Kernel)
    requires Good(before) && AnswerDone(before, after, answer, kernel) && after != before
    requires before.occupations[answer.id.slot] - answer.occupation < TOKEN_MODULUS - 1
    ensures Live(before, answer.id) && answer.occupation == before.occupations[answer.id.slot]
  {
    assert Issued(before, answer.id, answer.occupation);
    IdentifierNamesItsOccupation(before, answer.id, answer.occupation);
  }

  ghost predicate EventsDone(before: Table, after: Table, events: seq<ReadyEvent>, turn: Turn, limits: Limits)
    decreases |events|
  {
    if events == [] then after == before
    else
      var n := |events| - 1;
      exists now ::
        EventsDone(before, now, events[..n], turn, limits) && EventDone(now, after, events[n], n, turn, limits)
  }

  lemma OneMoreEvent(
      before: Table, now: Table, after: Table, events: seq<ReadyEvent>, event: ReadyEvent, turn: Turn, limits: Limits)
    requires EventsDone(before, now, events, turn, limits) && EventDone(now, after, event, |events|, turn, limits)
    ensures EventsDone(before, after, events + [event], turn, limits)
  {
    var more := events + [event];
    assert more[..|more| - 1] == events && more[|more| - 1] == event;
  }

  // ---------------------------------------------------------------- the beginning of a drain

  /** The table as if it were not draining; while shutdown begins, not every connection need have output yet. */
  ghost function Undrained(t: Table): Table { t.(draining := false) }

  /** Shutdown has come to a slot: the connections below it that have nothing to send are gone, the others are
      untouched. */
  ghost predicate Shedding(before: Table, now: Table, bound: nat) {
    && now.setup == before.setup && now.generations == before.generations && now.occupations == before.occupations
    && now.connections.Keys <= before.connections.Keys
    && (forall slot | slot in before.connections :: ShedAt(before, now, slot, bound))
  }

  ghost predicate ShedAt(before: Table, now: Table, slot: nat, bound: nat) {
    && Present(before, slot)
    && var e := EntryAt(before, slot);
       Became(before, now, slot, if slot < bound && !HasOutput(e) then Leaves(Aborted, e.log) else Stays(e))
  }

  lemma SheddingBegins(t: Table)
    requires Good(t)
    ensures Shedding(t, t.(draining := true), 0)
  {
    forall slot | slot in t.connections ensures ShedAt(t, t.(draining := true), slot, 0) {
      assert EntryOk(t, slot);
      assert EntryAt(t.(draining := true), slot) == EntryAt(t, slot);
    }
  }

  lemma ShedOne(before: Table, now: Table, after: Table, slot: nat)
    requires Shedding(before, now, slot)
    requires slot in before.connections && !HasOutput(EntryAt(before, slot)) ==>
               Present(now, slot) && Turns(now, after, slot, Leaves(Aborted, EntryAt(before, slot).log))
    requires !(slot in before.connections && !HasOutput(EntryAt(before, slot))) ==> after == now
    ensures Shedding(before, after, slot + 1)
  {
    forall other | other in before.connections ensures ShedAt(before, after, other, slot + 1) {
      assert ShedAt(before, now, other, slot);
      if other != slot && other in now.connections && after != now {
        TurnsElsewhere(now, after, slot, Leaves(Aborted, EntryAt(before, slot).log), other);
      }
    }
  }

  lemma UndrainedTurns(before: Table, after: Table, slot: nat, log: Log)
    requires Turns(before, after, slot, Leaves(Aborted, log)) && Good(Undrained(before)) && log == before.logs[slot]
    ensures Good(Undrained(after)) && Progress(Undrained(before), Undrained(after))
  {
    assert EntryOk(Undrained(before), slot);
    assert Turns(Undrained(before), Undrained(after), slot, Leaves(Aborted, log));
    assert EntryAt(Undrained(before), slot) == EntryAt(before, slot);
    ConservedEnds(before.setup, EntryAt(before, slot));
    TurnKeeps(Undrained(before), Undrained(after), slot, Leaves(Aborted, log));
  }

  lemma KeptHasOutput(start: Table, t: Table, slot: nat)
    requires ShedAt(start, t, slot, |t.generations|) && slot < |t.generations| && slot in t.connections
    requires EntryOk(Undrained(t), slot) && t.draining
    ensures EntryOk(t, slot)
  {
    assert EntryAt(t, slot) == EntryAt(Undrained(t), slot);
  }

  lemma DrainingBegins(start: Table, t: Table)
    requires Good(start) && !start.draining && t.draining && Shedding(start, t, |t.generations|)
    requires Good(Undrained(t)) && Progress(start, Undrained(t))
    ensures Good(t) && Progress(start, t)
  {
    InRange(start);
    forall slot | slot in t.connections ensures EntryOk(t, slot) {
      assert EntryOk(Undrained(t), slot) && ShedAt(start, t, slot, |t.generations|);
      KeptHasOutput(start, t, slot);
    }
    forall slot | slot in t.logs ensures Continued(start, t, slot) || Newer(start, t, slot) {
      assert Continued(start, Undrained(t), slot) || Newer(start, Undrained(t), slot);
    }
  }

  /** Every connection below a slot is gone. */
  ghost predicate ClosedBelow(t: Table, slot: nat) { forall s | s in t.connections :: slot <= s }

  lemma ClosedOneMore(before: Table, after: Table, slot: nat)
    requires ClosedBelow(before, slot) && after.connections == before.connections - {slot}
    ensures ClosedBelow(after, slot + 1)
  {
  }

  lemma NoneLeft(t: Table)
    requires Good(t) && ClosedBelow(t, |t.generations|)
    ensures t.connections == map[]
  {
    InRange(t);
    assert forall slot :: slot !in t.connections;
  }

  // ---------------------------------------------------------------- whole turns

  /** Where a turn of the loop has got to: after shutdown began (or not), the resolver's answers, the four chores, and
      the three queues. */
  datatype Stages = Stages(
    begun: Table,
    answered: Table,
    expiredLookups: Table,
    expiredProxies: Table,
    closedIdle: Table,
    pumped: Table,
    wrote: Table,
    wroteUpstream: Table,
    readUpstream: Table)

  /** Shutdown begins if it is requested: only connections with something to send are kept, and those as they are. */
  ghost predicate Begun(before: Table, after: Table, requested: bool) {
    if requested && !before.draining
    then after.draining && Shedding(before, after, |before.generations|)
    else after == before
  }

  /** Exactly the connections with a file stream or unsent bytes survive the beginning of a shutdown, as they were. */
  lemma ShutdownSparesExactly(before: Table, after: Table, slot: nat)
    requires Good(before) && !before.draining && Begun(before, after, true) && slot in before.connections
    ensures var c := before.connections[slot];
            slot in after.connections <==> c.staticStream.Some? || c.writeOffset != |c.writeBuffer|
    ensures slot in after.connections ==> after.connections[slot] == before.connections[slot]
  {
    assert EntryOk(before, slot) && slot < |before.generations|;
    assert ShedAt(before, after, slot, |before.generations|);
  }

  ghost predicate ChoreDone(before: Table, after: Table, chore: Chore, turn: Turn) {
    Passing(before, after, Chores(chore, turn.due(chore)), turn.kernel(Doing(chore)), {})
  }

  ghost predicate QueueDone(before: Table, after: Table, queue: Queue, turn: Turn) {
    Passing(before, after, Serve(queue), turn.kernel(Serving(queue)), {})
  }

  /** One turn of the loop, stage by stage. */
  ghost predicate TurnDone(before: Table, after: Table, turn: Turn, limits: Limits, s: Stages) {
    Begun(before, s.begun, turn.requested) && StagesDone(s.begun, after, turn, limits, s)
  }

  ghost predicate StagesDone(begun: Table, after: Table, turn: Turn, limits: Limits, s: Stages) {
    && s.begun == begun
    && AnswersDone(s.begun, s.answered, turn.answers(Answering), turn.kernel(Answering))
    && ChoreDone(s.answered, s.expiredLookups, ExpireResolution, turn)
    && ChoreDone(s.expiredLookups, s.expiredProxies, ExpireProxy, turn)
    && ChoreDone(s.expiredProxies, s.closedIdle, CloseIdle, turn)
    && ChoreDone(s.closedIdle, s.pumped, PumpStream, turn)
    && QueueDone(s.pumped, s.wrote, ClientWrites, turn)
    && QueueDone(s.wrote, s.wroteUpstream, UpstreamWrites, turn)
    && QueueDone(s.wroteUpstream, s.readUpstream, UpstreamReads, turn)
    && EventsDone(s.readUpstream, after, turn.events, turn, limits)
  }

  ghost predicate Identified(answers: seq<Answer>) {
    forall i | 0 <= i < |answers| :: Token(answers[i].id, Upstream).Some?
  }

  /** The kernel lets every client be registered, and every answered lookup has an identifier that can be a token. */
  ghost predicate Untroubled(turn: Turn) {
    && (forall at, id :: turn.kernel(at)(id).registersClient)
    && (forall at :: Identified(turn.answers(at)))
  }

  lemma AnswerDoesNotFail(t: Table, answer: Answer, kernel: ConnectionId -> Kernel)
    requires Live(t, answer.id) && Token(answer.id, Upstream).Some?
    ensures !AnswerNext(t, answer, kernel).Fails?
  {
  }

  lemma ClientEventDoesNotFail(
      setup: Setup, e: Entry, draining: bool, event: ReadyEvent, k: Kernel, later: Kernel)
    requires k.registersClient
    ensures !OnClientEvent(setup, e, draining, event, k, later).Fails?
  {
    if !event.error {
      var written := ClientWrite(e, draining, event, k);
      WriteDoesNotFail(e, draining, k);
      if written.Stays? {
        var read := ClientRead(setup, written.entry, draining, event, later);
        ReadDoesNotFail(setup, written.entry, later);
        if read.Stays? {
          assert !ClientClose(read.entry, event).Fails?;
        }
      }
    }
  }

  lemma WriteDoesNotFail(e: Entry, draining: bool, k: Kernel)
    requires k.registersClient
    ensures WriteInRange(e) ==> !OnWritable(e, draining, k).Fails?
  {
  }

  lemma ReadDoesNotFail(setup: Setup, e: Entry, k: Kernel)
    ensures ReadInOrder(e) ==> !OnReadable(setup, e, k).Fails?
  {
    if ReadInOrder(e) && !HandlesRequest(e.conn.phase) {
      ReadsDoNotFail(setup, e, ReadsOf(setup, e.conn, k.clientReads), k);
    }
  }

  lemma ReadsDoNotFail(setup: Setup, e: Entry, end: ReadEnd, k: Kernel)
    ensures !OnReads(setup, e, end, k.plan, k.registersClient).Fails?
  {
  }

  lemma NextFails(t: Table, job: Job, turn: Turn, at: Moment)
    requires exists slot :: Present(t, slot) && NextFor(job, t, slot, turn.kernel(at)).Fails?
    ensures !Untroubled(turn)
  {
    var slot :| Present(t, slot) && NextFor(job, t, slot, turn.kernel(at)).Fails?;
    NextForFails(job, t, slot, turn.kernel(at));
  }

  ghost predicate SomeTurn(before: Table, after: Table, turn: Turn, limits: Limits) {
    exists s :: TurnDone(before, after, turn, limits, s)
  }

  /** The tables at the tops of the loop, as far as a run of turns has got. */
  ghost predicate TurnChain(tables: seq<Table>, script: seq<Turn>, limits: Limits) {
    && 0 < |tables| <= |script| + 1
    && forall i | 0 <= i < |tables| - 1 :: SomeTurn(tables[i], tables[i + 1], script[i], limits)
  }

  lemma OneMoreTurn(tables: seq<Table>, script: seq<Turn>, limits: Limits, after: Table, s: Stages)
    requires TurnChain(tables, script, limits) && |tables| <= |script|
    requires TurnDone(tables[|tables| - 1], after, script[|tables| - 1], limits, s)
    ensures TurnChain(tables + [after], script, limits)
  {
    var longer := tables + [after];
    forall i | 0 <= i < |longer| - 1 ensures SomeTurn(longer[i], longer[i + 1], script[i], limits) {
      if i < |tables| - 1 {
        assert SomeTurn(tables[i], tables[i + 1], script[i], limits);
      } else {
        assert TurnDone(longer[i], longer[i + 1], script[i], limits, s);
      }
    }
  }
}
