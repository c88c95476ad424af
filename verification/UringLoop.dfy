/** The rest of the io_uring worker: listeners, shutdown and the event loop (worker.rs, listener.rs), run against every
    kernel. The kernel is a script of happenings, of which the impossible ones do not occur: it completes each operation
    in flight at most once, at any time and with any result, fills receive buffers from the head of the ring, ends a
    multishot accept with the completion that does not announce more, and reports each cancel once. */
module UringLoop {
  import opened Common
  import opened Exchange
  import opened Identifiers
  import opened UringState
  import opened UringProgress
  import opened UringTurns
  import opened UringWorker
  import opened BufferRing

  /** The receives that the kernel has completed into a buffer and the worker has not handled. */
  class CompletedReceives {
    var filled: map<Op, Filled>

    constructor ()
      ensures filled == map[]
    {
      filled := map[];
    }
  }

  /** Listeners and shutdown. */
  class Control {
    var listeners: seq<Listener>
    var requested: bool
    var shuttingDown: bool
    var shutdownStarted: Option<nat>
    var pendingCancellations: nat

    // The kernel's side.
    var accepts: map<nat, AcceptMode>
    var cancels: nat
    var controlArmed: bool
    var namesArmed: bool
    var timerArmed: bool

    ghost function K(): Controls
      reads this
    {
      Controls(listeners, requested, shuttingDown, shutdownStarted, pendingCancellations, accepts, cancels,
               controlArmed, namesArmed, timerArmed)
    }

    constructor (listenerCount: nat, requested: bool)
      ensures K() == Unarmed(listenerCount, requested)
    {
      listeners := seq(listenerCount, _ => Listener(Multishot, false));
      this.requested, shuttingDown, shutdownStarted, pendingCancellations := requested, false, None, 0;
      accepts, cancels, controlArmed, namesArmed, timerArmed := map[], 0, false, false, false;
    }

    /** Every listener gets its accept, and the three control reads are submitted. */
    method SubmitInitial()
      requires K() == Unarmed(|listeners|, requested)
      modifies this
      ensures ControlsOk(K()) && !shuttingDown && requested == old(requested) && |listeners| == |old(listeners)|
      ensures forall i | 0 <= i < |listeners| :: listeners[i] == Listener(Multishot, true)
    {
      for i := 0 to |listeners|
        invariant Listening(listeners, accepts, true) && |listeners| == |old(listeners)|
        invariant requested == old(requested)
        invariant !shuttingDown && shutdownStarted == None && pendingCancellations == cancels == 0
        invariant forall j | 0 <= j < |listeners| :: listeners[j] == Listener(Multishot, j < i)
      {
        SubmitAccept(i);
      }
      controlArmed, namesArmed, timerArmed := true, true, true;
    }

    method RecordAccept(index: nat, result: int, more: bool)
      requires index < |listeners|
      modifies this`listeners, this`accepts
      ensures K() == Recorded(old(K()), index, result, more)
    {
      var mode := listeners[index].mode;
      var listener := listeners[index].RecordCompletion(more);
      if mode.Multishot? && MultishotUnsupported(result) {
        listener := listener.FallBackToSingleShot();
      }
      listeners := listeners[index := listener];
      if !more {
        accepts := accepts - {index};
      }
    }

    method SubmitAccept(index: nat)
      requires index < |listeners|
      modifies this`listeners, this`accepts
      ensures K() == Armed(old(K()), index)
    {
      if listeners[index].acceptPending {
        return;
      }
      accepts := accepts[index := listeners[index].mode];
      listeners := listeners[index := listeners[index].(acceptPending := true)];
    }

    /** What becomes of the listener when its accept has completed: unless shutdown is requested, it never stays without
        an accept. */
    method AcceptCompleted(index: nat, result: int, more: bool, choice: nat)
      requires AcceptPossible(K(), index, result, more)
      modifies this`listeners, this`accepts
      ensures K() == NextControls(old(K()), AcceptDone(index, result, more, choice))
    {
      RecordAccept(index, result, more);
      if !requested && !listeners[index].acceptPending {
        SubmitAccept(index);
      }
    }

    /** Shutdown begins once: every pending accept is cancelled. */
    method BeginShutdown(now: nat)
      requires requested
      modifies this`shuttingDown, this`shutdownStarted, this`pendingCancellations, this`cancels
      ensures K() == Begun(old(K()), now)
    {
      if shuttingDown {
        return;
      }
      shuttingDown, shutdownStarted := true, Some(now);
      var targets := 0;
      for i := 0 to |listeners|
        invariant targets == CountPending(listeners[..i])
      {
        assert listeners[..i + 1][..i] == listeners[..i];
        if listeners[i].acceptPending {
          targets := targets + 1;
        }
      }
      AllOf(listeners);
      pendingCancellations, cancels := targets, targets;
    }

    /** Another thread may have requested shutdown; if so, it begins. */
    method AtTop(now: nat, signalled: bool)
      modifies this
      ensures K() == NextControls(old(K()), LoopTop(now, signalled))
    {
      if signalled {
        requested := true;
      }
      if requested {
        BeginShutdown(now);
      }
    }

    /** What concerns nothing else: the shutdown event was read; a cancel was reported; names have arrived, and no more
        are asked for once the worker is shutting down. */
    method Handle(h: Happening)
      requires h.ShutdownRead? || h.CancelDone? || h.NamesResolved?
      modifies this
      ensures K() == NextControls(old(K()), h)
    {
      match h {
        case ShutdownRead =>
          if controlArmed {
            controlArmed, requested := false, true;
          }
        case CancelDone =>
          if cancels > 0 {
            cancels := cancels - 1;
            pendingCancellations := SaturatingSub(pendingCancellations, 1);
          }
        case NamesResolved(_, _) =>
          if namesArmed {
            namesArmed := !shuttingDown;
          }
      }
    }

    method Settled() returns (settled: bool)
      requires ControlsOk(K())
      ensures settled <==> pendingCancellations == 0 && accepts == map[]
    {
      settled := pendingCancellations == 0;
      for i := 0 to |listeners|
        invariant settled <==> pendingCancellations == 0 && forall j | 0 <= j < i :: !listeners[j].acceptPending
      {
        settled := settled && !listeners[i].acceptPending;
      }
      assert (forall j | 0 <= j < |listeners| :: !listeners[j].acceptPending) ==>
        forall j | j in accepts :: j !in accepts;
      if accepts != map[] {
        var j :| j in accepts;
        assert listeners[j].acceptPending;
      }
    }

    /** The top of the loop: begin to shut down if asked to, and stop if everything is drained or it has taken too
        long. */
    method Top(now: nat, signalled: bool, noConnections: bool, drainTimeout: nat) returns (outcome: Outcome)
      requires ControlsOk(K())
      modifies this
      ensures K() == NextControls(old(K()), LoopTop(now, signalled)) && ControlsOk(K())
      ensures outcome == TopOutcome(K(), noConnections, drainTimeout, now)
    {
      NextControlsOk(K(), LoopTop(now, signalled));
      AtTop(now, signalled);
      outcome := Running;
      if shuttingDown {
        var settled := Settled();
        if settled && noConnections {
          outcome := Drained;
        } else if now >= shutdownStarted.value + drainTimeout {
          outcome := DeadlineReached(now);
        }
      }
    }
  }

  class EventLoop {
    const worker: IoUringWorker
    const control: Control
    const drainTimeout: nat
    const received: CompletedReceives

    ghost predicate RingOk()
      reads worker, worker.ring, worker.ring.entries, received
    {
      worker.ring.Valid() && Filling(received.filled, worker.inflight, worker.ring.buffers, worker.ring.lent)
    }

    ghost predicate WorkerOk()
      reads worker
    {
      Sound(worker.W()) && |worker.connections| <= worker.maxConnections
    }

    /** The invariant of the event loop. */
    ghost predicate Valid()
      reads worker, worker.ring, worker.ring.entries, received, control
    {
      WorkerOk() && RingOk() && ControlsOk(control.K())
    }

    ghost function Limits(): Limits {
      UringTurns.Limits(worker.maxConnections, worker.timeouts, worker.ring.Size(), worker.ring.bufferLen)
    }

    /** A worker before its first submission. */
    constructor (worker: IoUringWorker, drainTimeout: nat, listenerCount: nat, requested: bool)
      requires worker.W() == World(worker.setup, map[], map[], [], [], multiset{}, {})
      requires worker.ring.Valid() && worker.ring.lent == {}
      ensures this.worker == worker && this.drainTimeout == drainTimeout
      ensures control.requested == requested && |control.listeners| == listenerCount && fresh(control)
        && fresh(received)
      ensures Idle()
    {
      this.worker, this.drainTimeout := worker, drainTimeout;
      received := new CompletedReceives();
      control := new Control(listenerCount, requested);
    }

    /** Nothing has been submitted. */
    ghost predicate Idle()
      reads worker, worker.ring, worker.ring.entries, received, control
    {
      && worker.W() == World(worker.setup, map[], map[], [], [], multiset{}, {})
      && worker.ring.Valid() && worker.ring.lent == {} && received.filled == map[]
      && control.K() == Unarmed(|control.listeners|, control.requested)
    }

    // -------------------------------------------------------------- accepting

    /** An accept has completed, for good or (a multishot one) with more to come. The source looks after the listener
        both before and after it keeps the connection; the two have nothing in common. */
    method HandleAcceptCompletion(h: Happening)
      requires WorkerOk() && h.AcceptDone?
      modifies control, worker
      ensures |worker.connections| <= worker.maxConnections
      ensures control.K() == NextControls(old(control.K()), h)
      ensures AcceptTaken(old(worker.W()), worker.W(), old(control.K()), worker.maxConnections, h)
    {
      if h.index in control.accepts && h.index < |control.listeners|
         && (h.more ==> control.accepts[h.index].Multishot? && h.result >= 0) {
        control.AcceptCompleted(h.index, h.result, h.more, h.choice);
        assert unchanged(worker);
        label recorded:
        worker.Admit(h.result >= 0 && !control.shuttingDown, h.index, h.choice);
        assert unchanged@recorded(control);
      }
    }

    // -------------------------------------------------------------- completions

    /** The kernel can complete a receive into the buffer at the head of the ring. */
    ghost predicate Fillable(op: Op, data: Bytes)
      reads worker, received
    {
      CanFill(worker.inflight, received.filled, op, data, Limits())
    }

    /** As long as some buffer is not in use, the kernel has one. */
    lemma RingHasRoom()
      requires RingOk()
      ensures worker.ring.taken < worker.ring.published <==> |received.filled| < worker.ring.Size()
    {
      AsManyLent(received.filled, worker.ring.lent);
      QueueAndLent(worker.ring.Queue(), worker.ring.lent, worker.ring.Size());
    }

    ghost predicate Holds(op: Op, data: Bytes)
      reads received
    {
      op in received.filled && received.filled[op].data == data
    }

    method FillBuffer(op: Op, data: Bytes)
      requires RingOk() && Fillable(op, data)
      modifies received, worker.ring`taken, worker.ring`lent, worker.ring`buffers
      ensures RingOk() && Holds(op, data) && received.filled - {op} == old(received.filled)
    {
      RingHasRoom();
      var ring := worker.ring;
      ghost var queue, buffers, lent := ring.Queue(), ring.buffers, ring.lent;
      assert |queue| > 0 && queue[0] in queue;
      var id := ring.KernelTake(data);
      assert id !in lent && data <= ring.buffers[id];
      FillingAfterFill(received.filled, worker.inflight, buffers, lent, op, Filled(id, data), ring.buffers);
      received.filled := received.filled[op := Filled(id, data)];
    }

    /** A completion that is not a receive. */
    method DispatchPlain(op: Op, result: int, plan: Plan, ready: bool, failures: nat, now: nat) returns (ok: bool)
      requires Sound(worker.W()) && op in worker.inflight && !IsReceive(op)
      modifies worker
      ensures ok == CanSubmit(old(worker.W()), op.id.slot, EventOf(op.id.kind, result, "", plan, ready, failures))
      ensures ok ==> Completed(old(worker.W()), worker.W(), op, EventOf(op.id.kind, result, "", plan, ready, failures))
      ensures ok ==> OnTime(old(worker.W()), worker.W(), op.id.slot, now)
    {
      CompletionIsFresh(worker.W(), op);
      if op.id.kind.Write? {
        ok := worker.CompleteWrite(op, result, ready, now);
      } else if op.id.kind.ProxyConnect? {
        ok := worker.CompleteConnect(op, result, failures, now);
      } else {
        ok := worker.CompleteRequest(op, result, now);
      }
    }

    /** The bytes of a completed receive: those the kernel put into the buffer, if it took one. */
    ghost function Arrived(op: Op): Bytes
      reads received
    {
      if op in received.filled then received.filled[op].data else ""
    }

    function BufferOf(op: Op): Option<nat>
      reads received
    {
      if op in received.filled then Some(received.filled[op].id) else None
    }

    lemma ArrivedIsPayload(op: Op, result: int)
      requires RingOk() && if op in received.filled then result == |received.filled[op].data| else result <= 0
      ensures BufferOf(op).Some? ==> BufferOf(op).value in worker.ring.lent
      ensures worker.ring.Payload(result, BufferOf(op)) == Some(Arrived(op))
    {
      if op in received.filled {
        var f, buffer := received.filled[op], worker.ring.buffers[received.filled[op].id];
        assert |buffer| == worker.ring.bufferLen && f.data <= buffer;
        assert buffer[..result] == f.data;
      }
    }

    method Release(op: Op)
      requires worker.ring.Valid()
        && Filling(received.filled - {op}, worker.inflight, worker.ring.buffers, worker.ring.lent)
      modifies received
      ensures RingOk() && received.filled == old(received.filled) - {op}
    {
      received.filled := received.filled - {op};
    }

    /** The receive is handled and its buffer given back, but not yet crossed off. */
    method HandleFilled(op: Op, result: int, plan: Plan, now: nat, ghost event: Event) returns (ok: bool)
      requires Sound(worker.W()) && RingOk() && op in worker.inflight && IsReceive(op)
      requires if op in received.filled then result == |received.filled[op].data| else result <= 0
      requires event == if op.id.kind.Read? then Received(result, Arrived(op), plan) else Responded(result, Arrived(op))
      modifies worker
      modifies worker.ring`tail, worker.ring`published, worker.ring`lent, worker.ring.entries
      ensures worker.ring.Valid()
      ensures worker.ring.lent == old(worker.ring.lent) - (if BufferOf(op).Some? then {BufferOf(op).value} else {})
      ensures ok == CanSubmit(old(worker.W()), op.id.slot, event)
      ensures ok ==> Completed(old(worker.W()), worker.W(), op, event)
      ensures ok ==> OnTime(old(worker.W()), worker.W(), op.id.slot, now)
    {
      ArrivedIsPayload(op, result);
      ghost var data := Arrived(op);
      ok := worker.HandleReceive(op, result, BufferOf(op), plan, now, data, event);
      assert unchanged(received);
    }

    method DispatchReceive(op: Op, result: int, plan: Plan, now: nat, ghost event: Event) returns (ok: bool)
      requires Sound(worker.W()) && RingOk() && op in worker.inflight && IsReceive(op)
      requires if op in received.filled then result == |received.filled[op].data| else result <= 0
      requires event == if op.id.kind.Read? then Received(result, Arrived(op), plan) else Responded(result, Arrived(op))
      modifies received, worker
      modifies worker.ring`tail, worker.ring`published, worker.ring`lent, worker.ring.entries
      ensures ok ==> RingOk() && received.filled == old(received.filled) - {op}
      ensures ok == CanSubmit(old(worker.W()), op.id.slot, event)
      ensures ok ==> Completed(old(worker.W()), worker.W(), op, event)
      ensures ok ==> OnTime(old(worker.W()), worker.W(), op.id.slot, now)
    {
      ghost var lent, inflight := worker.ring.lent, worker.inflight;
      ok := HandleFilled(op, result, plan, now, event);
      label handled:
      assert unchanged(received);
      if ok {
        FillingAfterDispatch(
          received.filled, inflight, worker.ring.buffers, lent, op, BufferOf(op), worker.inflight, worker.ring.lent);
        Release(op);
        assert unchanged@handled(worker, worker.ring, worker.ring.entries);
      }
    }

    method ProcessName(a: Answer, now: nat) returns (ok: bool)
      requires Sound(worker.W())
      modifies worker
      ensures ok ==> OneAnswerTaken(old(worker.W()), worker.W(), a, now)
      ensures Comfortable(old(worker.W())) ==> ok
    {
      ok := true;
      if a.lookup in worker.lookups {
        WantedCanSubmit(worker.W(), a.lookup, Resolved(a.addresses, a.failures));
        ok := worker.HandleAnswer(a.lookup, a.addresses, a.failures, now);
      }
    }

    method ProcessNames(answers: seq<Answer>, now: nat) returns (ok: bool)
      requires Sound(worker.W())
      modifies worker
      ensures ok ==> AnswersTaken(old(worker.W()), worker.W(), answers, now)
      ensures Comfortable(old(worker.W())) ==> ok
    {
      ghost var start := worker.W();
      for i := 0 to |answers|
        invariant Sound(worker.W()) && AnswersTaken(start, worker.W(), answers[..i], now)
        invariant Comfortable(start) ==> Comfortable(worker.W())
      {
        ghost var before := worker.W();
        ok := ProcessName(answers[i], now);
        if !ok {
          return;
        }
        AnswerSettled(before, worker.W(), answers[i], now);
        if Comfortable(start) {
          AnswerStaysComfortable(before, worker.W(), answers[i], now);
        }
        OneMoreAnswer(start, before, worker.W(), answers[..i], answers[i], now);
        Grow(answers, i);
      }
      AllOf(answers);
      ok := true;
    }

    /** A timer tick: first the timeouts, then the file streams. */
    method CheckProxyTimeouts(now: nat, ready: set<nat>) returns (ok: bool)
      requires Sound(worker.W())
      modifies worker
      ensures ok ==> TickTaken(old(worker.W()), worker.W(), worker.timeouts, now, ready)
      ensures Comfortable(old(worker.W())) ==> ok
    {
      ghost var start := worker.W();
      var expired, pumped;
      ok, expired := worker.SweepConnections(now, false, {});
      if Comfortable(start) {
        SweepIsNotStuck(start, expired, Timeouts);
      }
      if !ok {
        return;
      }
      ghost var between := worker.W();
      if Comfortable(start) {
        SweptStaysComfortable(start, between, expired, Timeouts);
      }
      ok, pumped := worker.SweepConnections(now, true, ready);
      if Comfortable(between) {
        SweepIsNotStuck(between, pumped, Chunks(ready));
      }
      if ok {
        assert TickSteps(start, between, worker.W(), expired, pumped, worker.timeouts, now, ready);
      }
    }

    // -------------------------------------------------------------- turns
    //
    // One happening each.

    method TurnReceive(op: Op, result: int, plan: Plan, now: nat, ghost event: Event) returns (ok: bool)
      requires WorkerOk() && RingOk() && op in worker.inflight && IsReceive(op)
      requires if op in received.filled then result == |received.filled[op].data| else result <= 0
      requires event == if op.id.kind.Read? then Received(result, Arrived(op), plan) else Responded(result, Arrived(op))
      modifies received, worker
      modifies worker.ring`tail, worker.ring`published, worker.ring`lent, worker.ring.entries
      ensures ok == CanSubmit(old(worker.W()), op.id.slot, event)
      ensures ok ==> WorkerOk() && RingOk() && received.filled == old(received.filled) - {op}
      ensures ok ==> Completed(old(worker.W()), worker.W(), op, event)
      ensures ok ==> OnTime(old(worker.W()), worker.W(), op.id.slot, now)
    {
      ghost var before := worker.W();
      ok := DispatchReceive(op, result, plan, now, event);
      if ok {
        HandledMeans(before, worker.W(), op.id.slot, event);
        CompletedShrinks(before, worker.W(), op, event);
      }
    }

    method TurnPlain(op: Op, result: int, plan: Plan, ready: bool, failures: nat, now: nat, ghost event: Event)
      returns (ok: bool)
      requires WorkerOk() && RingOk() && op in worker.inflight && !IsReceive(op)
      requires event == EventOf(op.id.kind, result, "", plan, ready, failures)
      modifies worker
      ensures ok == CanSubmit(old(worker.W()), op.id.slot, event)
      ensures ok ==> WorkerOk() && RingOk()
      ensures ok ==> Completed(old(worker.W()), worker.W(), op, event)
      ensures ok ==> OnTime(old(worker.W()), worker.W(), op.id.slot, now)
    {
      ghost var before, inflight := worker.W(), worker.inflight;
      ok := DispatchPlain(op, result, plan, ready, failures, now);
      assert unchanged(worker.ring, worker.ring.entries, received);
      if ok {
        HandledMeans(before, worker.W(), op.id.slot, event);
        CompletedShrinks(before, worker.W(), op, event);
        FillingKept(received.filled, inflight, worker.ring.buffers, worker.ring.lent, worker.inflight);
      }
    }

    method TurnNames(answers: seq<Answer>, now: nat) returns (ok: bool)
      requires WorkerOk() && RingOk()
      modifies worker
      ensures ok ==> WorkerOk() && RingOk() && AnswersTaken(old(worker.W()), worker.W(), answers, now)
      ensures Comfortable(old(worker.W())) ==> ok
    {
      ghost var before, inflight := worker.W(), worker.inflight;
      ok := ProcessNames(answers, now);
      assert unchanged(worker.ring, worker.ring.entries, received);
      if ok {
        AnswersSettle(before, worker.W(), answers, now);
        SettlesShrinks(before, worker.W());
        FillingKept(received.filled, inflight, worker.ring.buffers, worker.ring.lent, worker.inflight);
      }
    }

    /** The timer is armed again in any case. */
    method TurnTimer(now: nat, ready: set<nat>) returns (ok: bool)
      requires WorkerOk() && RingOk()
      modifies worker
      ensures ok ==> WorkerOk() && RingOk() && TickTaken(old(worker.W()), worker.W(), worker.timeouts, now, ready)
      ensures Comfortable(old(worker.W())) ==> ok
    {
      ghost var before, inflight := worker.W(), worker.inflight;
      ok := CheckProxyTimeouts(now, ready);
      assert unchanged(worker.ring, worker.ring.entries, received);
      if ok {
        TickSettles(before, worker.W(), worker.timeouts, now, ready);
        SettlesShrinks(before, worker.W());
        FillingKept(received.filled, inflight, worker.ring.buffers, worker.ring.lent, worker.inflight);
      }
    }

    /** Nothing is left: no connection, no accept, no cancel, nothing in flight, every receive buffer with the
        kernel. */
    ghost predicate Quiet()
      reads worker, control, received, worker.ring
    {
      && worker.connections == map[] && worker.inflight == multiset{} && received.filled == map[]
        && worker.ring.lent == {}
      && control.accepts == map[] && control.cancels == 0
    }

    lemma QuietWhenDrained()
      requires Valid() && worker.connections == map[] && control.accepts == map[] && control.pendingCancellations == 0
      ensures Quiet()
    {
      NothingInFlight(worker.W());
      assert forall op | op in received.filled :: op in worker.inflight;
      NoneFilled(received.filled, worker.inflight, worker.ring.buffers, worker.ring.lent);
    }

    // Each of the following first asks whether the kernel can bring the happening about at all.

    method TurnFilled(op: Op, data: Bytes)
      requires RingOk()
      modifies received, worker.ring`taken, worker.ring`lent, worker.ring`buffers
      ensures RingOk()
      ensures if old(Fillable(op, data))
        then BufferTaken(worker.inflight, old(received.filled), received.filled, op, data)
              else received.filled == old(received.filled)
    {
      RingHasRoom();
      if op in worker.inflight && op !in received.filled && IsReceive(op)
         && worker.ring.taken < worker.ring.published && 0 < |data| <= worker.ring.bufferLen {
        FillBuffer(op, data);
      }
    }

    /** A receive ends with the bytes of its buffer, if it was given one. */
    method TurnReceived(h: Happening) returns (ok: bool)
      requires WorkerOk() && RingOk() && h.OperationDone? && h.op in worker.inflight && IsReceive(h.op)
      requires ResultPossible(received.filled, h.op, h.result)
      modifies received, worker, worker.ring`tail, worker.ring`published, worker.ring`lent, worker.ring.entries
      ensures ok == CanFinish(old(worker.W()), old(received.filled), h)
      ensures ok ==> WorkerOk() && RingOk() && received.filled == old(received.filled) - {h.op}
      ensures ok ==> OperationTaken(old(worker.W()), worker.W(), old(received.filled), h)
    {
      var op := h.op;
      ghost var event := EventDone(received.filled, op, h.result, h.plan, h.ready, h.failures);
      ReceiveEvent(received.filled, op, h.result, Arrived(op), h.plan, h.ready, h.failures);
      var length := if op in received.filled then |received.filled[op].data| else h.result;
      ok := TurnReceive(op, length, h.plan, h.now, event);
    }

    method TurnSent(h: Happening) returns (ok: bool)
      requires WorkerOk() && RingOk() && h.OperationDone? && h.op in worker.inflight && !IsReceive(h.op)
      modifies worker
      ensures ok == CanFinish(old(worker.W()), old(received.filled), h)
      ensures ok ==> WorkerOk() && RingOk()
      ensures ok ==> OperationTaken(old(worker.W()), worker.W(), old(received.filled), h)
    {
      ghost var event := EventDone(received.filled, h.op, h.result, h.plan, h.ready, h.failures);
      ok := TurnPlain(h.op, h.result, h.plan, h.ready, h.failures, h.now, event);
    }

    method TurnOperation(h: Happening) returns (ok: bool)
      requires WorkerOk() && RingOk() && h.OperationDone?
      modifies received, worker, worker.ring`tail, worker.ring`published, worker.ring`lent, worker.ring.entries
      ensures ok == CanFinish(old(worker.W()), old(received.filled), h)
      ensures ok ==> WorkerOk() && RingOk()
      ensures ok ==> OperationTaken(old(worker.W()), worker.W(), old(received.filled), h)
      ensures ok ==> ReceivesTaken(old(worker.inflight), old(received.filled), received.filled, Limits(), h)
    {
      NotAReceive(received.filled, h.op);
      if h.op !in worker.inflight || (IsReceive(h.op) && h.op !in received.filled && h.result > 0) {
        ok := true;
      } else if IsReceive(h.op) {
        ok := TurnReceived(h);
      } else {
        ok := TurnSent(h);
        assert unchanged(received);
      }
    }

    method TurnResolved(answers: seq<Answer>, now: nat) returns (ok: bool)
      requires WorkerOk() && RingOk()
      modifies control, worker
      ensures control.K() == NextControls(old(control.K()), NamesResolved(answers, now))
      ensures ok ==> WorkerOk() && RingOk()
      ensures ok ==> if old(control.namesArmed) then AnswersTaken(old(worker.W()), worker.W(), answers, now)
                     else worker.W() == old(worker.W())
      ensures Comfortable(old(worker.W())) ==> ok
    {
      var armed := control.namesArmed;
      control.Handle(NamesResolved(answers, now));
      assert unchanged(worker, worker.ring, worker.ring.entries, received);
      ok := true;
      label handled:
      if armed {
        ok := TurnNames(answers, now);
        assert unchanged@handled(control);
      }
    }

    method TurnAccepted(h: Happening)
      requires WorkerOk() && RingOk() && h.AcceptDone?
      modifies control, worker
      ensures control.K() == NextControls(old(control.K()), h)
      ensures WorkerOk() && RingOk()
      ensures AcceptTaken(old(worker.W()), worker.W(), old(control.K()), worker.maxConnections, h)
    {
      ghost var before, inflight, controls := worker.W(), worker.inflight, control.K();
      HandleAcceptCompletion(h);
      assert unchanged(worker.ring, worker.ring.entries, received);
      AcceptIsGrown(before, worker.W(), controls, worker.maxConnections, h);
      FillingKept(received.filled, inflight, worker.ring.buffers, worker.ring.lent, worker.inflight);
    }

    ghost function Now(): Moment
      reads worker, control, received
    {
      Moment(worker.W(), control.K(), received.filled)
    }

    /** What changes no connection. */
    predicate Aside(h: Happening) { h.BufferFilled? || h.ShutdownRead? || h.CancelDone? || h.ProxyCancelDone? }

    method TurnAside(h: Happening)
      requires RingOk() && Aside(h)
      modifies control, received, worker.ring`taken, worker.ring`lent, worker.ring`buffers
      ensures control.K() == NextControls(old(control.K()), h) && RingOk()
      ensures ReceivesTaken(worker.inflight, old(received.filled), received.filled, Limits(), h)
    {
      label start:
      if h.BufferFilled? {
        TurnFilled(h.op, h.data);
        assert unchanged@start(control);
      } else if h.ShutdownRead? || h.CancelDone? {
        control.Handle(h);
        assert unchanged@start(worker.ring, worker.ring.entries, received);
      }
    }

    /** A turn in which connections may take a step. */
    method TurnWorker(h: Happening) returns (ok: bool)
      requires WorkerOk() && RingOk() && !h.LoopTop? && !Aside(h)
      modifies control, received, worker, worker.ring, worker.ring.entries
      ensures control.K() == NextControls(old(control.K()), h)
      ensures ok ==>
                WorkerOk() && RingOk()
                  && ReceivesTaken(old(worker.inflight), old(received.filled), received.filled, Limits(), h)
      ensures ok ==> Effect(old(worker.W()), worker.W(), old(control.K()), old(received.filled), Limits(), h)
      ensures h.OperationDone? ==> ok == CanFinish(old(worker.W()), old(received.filled), h)
      ensures !h.OperationDone? && Comfortable(old(worker.W())) ==> ok
    {
      label start:
      if h.OperationDone? {
        ok := TurnOperation(h);
        assert unchanged@start(control);
      } else if h.AcceptDone? {
        TurnAccepted(h);
        assert unchanged@start(received);
        ok := true;
      } else if h.NamesResolved? {
        ok := TurnResolved(h.answers, h.now);
        assert unchanged@start(received);
      } else {
        ok := TurnTimer(h.now, h.deliverable);
        assert unchanged@start(control, received);
      }
    }

    /** A happening that the kernel cannot bring about leaves everything as it is. */
    method TurnAny(h: Happening) returns (ok: bool)
      requires WorkerOk() && RingOk() && !h.LoopTop?
      modifies control, received, worker, worker.ring, worker.ring.entries
      ensures ok ==> WorkerOk() && RingOk() && TurnTaken(old(Now()), Now(), Limits(), h)
      ensures h.OperationDone? ==> ok == CanFinish(old(worker.W()), old(received.filled), h)
      ensures !h.OperationDone? && Comfortable(old(worker.W())) ==> ok
    {
      label start:
      if Aside(h) {
        TurnAside(h);
        assert unchanged@start(worker);
        ok := true;
      } else {
        ok := TurnWorker(h);
      }
    }

    method TurnLoopTop(h: Happening) returns (outcome: Outcome)
      requires ControlsOk(control.K()) && h.LoopTop?
      modifies control
      ensures ControlsOk(control.K()) && Now() == old(Now()).(controls := NextControls(old(control.K()), h))
      ensures IsTopOutcome(outcome, h.now) && outcome != Failed
    {
      outcome := control.Top(h.now, h.signalled, worker.connections == map[], drainTimeout);
    }

    /** A run ends only at the top of the loop. */
    ghost predicate EndsAtTop(outcome: Outcome)
      reads worker, control
    {
      outcome == Running || outcome == Failed
      || exists now :: IsTopOutcome(outcome, now)
    }

    ghost predicate IsTopOutcome(outcome: Outcome, now: nat)
      reads worker, control
    {
      outcome == TopOutcome(control.K(), worker.connections == map[], drainTimeout, now)
    }

    lemma EndMeans(outcome: Outcome)
      requires Valid() && EndsAtTop(outcome)
      ensures Ends(outcome)
    {
      if outcome == Drained {
        QuietWhenDrained();
      }
    }

    /** What is true when a run ends, or goes on. */
    ghost predicate Ends(outcome: Outcome)
      reads worker, control, received, worker.ring
    {
      match outcome
      case Running => true
      case Drained => Quiet()
      case DeadlineReached(now) => Overtime(now)
      case Failed => true
    }

    /** One happening. */
    method Turn(h: Happening) returns (outcome: Outcome)
      requires Valid()
      modifies control, received, worker, worker.ring, worker.ring.entries
      ensures outcome != Failed ==> Valid() && TurnTaken(old(Now()), Now(), Limits(), h)
      ensures h.LoopTop? ==> IsTopOutcome(outcome, h.now)
      ensures h.OperationDone? ==>
        outcome == if CanFinish(old(worker.W()), old(received.filled), h) then Running else Failed
      ensures !h.LoopTop? ==> outcome == Running || outcome == Failed
      ensures Comfortable(old(worker.W())) && Fits(h) ==> outcome != Failed && Comfortable(worker.W())
    {
      ghost var before := Now();
      if h.LoopTop? {
        outcome := TurnLoopTop(h);
        assert unchanged(worker, worker.ring, worker.ring.entries, received);
        TopIsTaken(before, Now(), Limits(), h);
      } else {
        NextControlsOk(before.controls, h);
        var ok := TurnAny(h);
        outcome := if ok then Running else Failed;
        TurnIsComfortable(before, Now(), Limits(), h, ok);
      }
    }

    /** The worker is where these happenings lead from `start`. */
    ghost predicate Reached(start: Moment, happenings: seq<Happening>)
      reads worker, worker.ring, worker.ring.entries, received, control
    {
      exists limits :: limits == Limits() && Valid() && Ran(start, Now(), limits, happenings)
    }

    lemma Unmoved()
      requires Valid()
      ensures Reached(Now(), [])
    {
      assert Ran(Now(), Now(), Limits(), []);
    }

    /** A run that is to succeed has not failed, and can go on. */
    ghost predicate Eased(easy: bool, outcome: Outcome)
      reads worker
    {
      exists w :: EasedAt(w, easy, outcome)
    }

    ghost predicate EasedAt(w: World, easy: bool, outcome: Outcome)
      reads worker
    {
      w == worker.W() && (easy ==> outcome != Failed && Comfortable(w))
    }

    /** Happening `i` of a script whose first `i` were turns since `start`. */
    method Continue(script: seq<Happening>, i: nat, ghost start: Moment, ghost easy: bool) returns (outcome: Outcome)
      requires i < |script| && Reached(start, script[..i]) && Eased(easy, Running) && (easy ==> AllFit(script))
      modifies control, received, worker, worker.ring, worker.ring.entries
      ensures outcome != Failed ==> Reached(start, script[..i + 1])
      ensures EndsAtTop(outcome) && Eased(easy, outcome)
    {
      ghost var before := Now();
      assert easy ==> Comfortable(before.world) && Fits(script[i]);
      outcome := Turn(script[i]);
      assert EasedAt(worker.W(), easy, outcome);
      if outcome != Failed {
        OneMoreTurn(start, before, Now(), Limits(), script[..i], script[i]);
        Grow(script, i);
      }
    }

    /** Any number of turns, until one ends the run: `turns` of them. */
    method Resume(script: seq<Happening>) returns (outcome: Outcome, ghost turns: nat)
      requires Valid()
      modifies control, received, worker, worker.ring, worker.ring.entries
      ensures turns <= |script|
      ensures outcome != Failed ==> Reached(old(Now()), script[..turns])
      ensures (outcome == Running ==> turns == |script|) && EndsAtTop(outcome)
      ensures Comfortable(old(worker.W())) && AllFit(script) ==> outcome != Failed
    {
      ghost var start := Now();
      ghost var easy := Comfortable(start.world) && AllFit(script);
      outcome := Running;
      var i := 0;
      AllOf(script);
      Unmoved();
      assert script[..0] == [] && EasedAt(worker.W(), easy, outcome);
      while i < |script| && outcome == Running
        invariant i <= |script|
        invariant outcome != Failed ==> Reached(start, script[..i])
        invariant EndsAtTop(outcome) && Eased(easy, outcome)
      {
        outcome := Continue(script, i, start, easy);
        i := i + 1;
      }
      turns := i;
    }

    ghost predicate Overtime(now: nat)
      reads control
    {
      control.shutdownStarted.Some? && now >= control.shutdownStarted.value + drainTimeout
    }

    /** A whole run: the first submissions, then whatever happens. */
    method Run(script: seq<Happening>) returns (outcome: Outcome, ghost first: Moment, ghost turns: nat)
      requires Idle()
      modifies control, received, worker, worker.ring, worker.ring.entries
      ensures turns <= |script| && Begins(first, old(control.requested), |old(control.listeners)|)
      ensures outcome != Failed ==> Valid() && Ran(first, Now(), Limits(), script[..turns])
      ensures (outcome == Running ==> turns == |script|) && Ends(outcome)
      ensures Modest(worker.setup) && AllFit(script) ==> outcome != Failed
    {
      control.SubmitInitial();
      assert unchanged(worker, worker.ring, worker.ring.entries, received);
      EmptyIsSound(worker.W());
      first := Now();
      outcome, turns := Resume(script);
      if outcome != Failed {
        EndMeans(outcome);
      }
    }

    /** No connection yet, every listener with its multishot accept. */
    ghost predicate Begins(first: Moment, requested: bool, listeners: nat) {
      && first.world == World(worker.setup, map[], map[], [], [], multiset{}, {}) && first.filled == map[]
      && ControlsOk(first.controls) && first.controls.requested == requested && !first.controls.shuttingDown
      && |first.controls.listeners| == listeners
      && forall i | 0 <= i < listeners :: first.controls.listeners[i] == Listener(Multishot, true)
    }
  }
}
