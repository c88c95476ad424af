/** The shutdown handle (runtime/mod.rs): any number of threads request shutdown while the io_uring worker installs its
    event and the readiness worker its waker. Every action on the flag and every stretch under a lock is one step; a
    schedule says who takes the next one. */
module Shutdown {
  import opened Common

  /** What a call of `request` does next: set the flag, wake the waker, signal the event. */
  datatype Request = SetFlag | Wake | Signal | Finished

  /** What a call of `install_eventfd` does next: store the event, look at the flag, and if it is set request once
      more. */
  datatype Install = Store | Look | Again(request: Request) | Installed

  /** Whose turn it is. */
  datatype Thread = Requester(index: nat) | EventInstaller | WakerInstaller

  /** The handle and the threads that use it: how often the installed waker was woken and the installed event written,
      and whether the flag was already set when the waker was installed, so that the worker sees it before it waits. */
  datatype State = State(
    requested: bool,
    waker: bool,
    event: bool,
    wakes: nat,
    signals: nat,
    requests: seq<Request>,
    install: Install,
    seenByWaker: bool)
  {
    predicate AllFinished() { forall i | 0 <= i < |requests| :: requests[i].Finished? }
  }

  function Start(callers: nat): State {
    State(false, false, false, 0, 0, seq(callers, _ => SetFlag), Store, false)
  }

  // ---------------------------------------------------------------- steps

  function Next(request: Request): Request {
    match request
    case SetFlag => Wake
    case Wake => Signal
    case _ => Finished
  }

  /** What the next action of a call of `request` does to the handle. */
  function Acted(s: State, request: Request): State {
    match request
    case SetFlag => s.(requested := true)
    case Wake => s.(wakes := s.wakes + if s.waker then 1 else 0)
    case Signal => s.(signals := s.signals + if s.event then 1 else 0)
    case Finished => s
  }

  function AfterRequester(s: State, i: nat): State
    requires i < |s.requests|
  {
    Acted(s, s.requests[i]).(requests := s.requests[i := Next(s.requests[i])])
  }

  function AfterInstaller(s: State): State {
    match s.install
    case Store => s.(event := true, install := Look)
    case Look => s.(install := if s.requested then Again(SetFlag) else Installed)
    case Again(request) =>
      Acted(s, request).(install := if Next(request).Finished? then Installed else Again(Next(request)))
    case Installed => s
  }

  function AfterWaker(s: State): State {
    if s.waker then s else s.(waker := true, seenByWaker := s.requested)
  }

  function Taken(s: State, thread: Thread): State {
    match thread
    case Requester(i) => if i < |s.requests| then AfterRequester(s, i) else s
    case EventInstaller => AfterInstaller(s)
    case WakerInstaller => AfterWaker(s)
  }

  /** A schedule, step by step. */
  function Played(s: State, schedule: seq<Thread>): State {
    if schedule == [] then s
    else Taken(Played(s, schedule[..|schedule| - 1]), schedule[|schedule| - 1])
  }

  // ---------------------------------------------------------------- no request is missed

  predicate Past(request: Request, step: Request) {
    match step
    case SetFlag => !request.SetFlag?
    case Wake => request.Signal? || request.Finished?
    case Signal => request.Finished?
    case Finished => false
  }

  ghost predicate Valid(s: State) {
    && (forall i | 0 <= i < |s.requests| :: Past(s.requests[i], SetFlag) ==> s.requested)
    && (s.event <==> !s.install.Store?)
    && (s.install.Again? ==> s.requested && !s.install.request.Finished?)
    && (s.signals > 0 ==> s.requested && s.event)
    && (s.wakes > 0 ==> s.requested && s.waker)
    && (s.install.Installed? && s.signals == 0 ==> forall i | 0 <= i < |s.requests| :: !Past(s.requests[i], Signal))
    && (s.waker && s.wakes == 0 && !s.seenByWaker ==> forall i | 0 <= i < |s.requests| :: !Past(s.requests[i], Wake))
  }

  lemma TakenKeeps(s: State, thread: Thread)
    requires Valid(s)
    ensures Valid(Taken(s, thread)) && |Taken(s, thread).requests| == |s.requests|
  {
  }

  lemma {:induction false} PlayedKeeps(s: State, schedule: seq<Thread>)
    requires Valid(s)
    ensures Valid(Played(s, schedule)) && |Played(s, schedule).requests| == |s.requests|
  {
    if schedule != [] {
      var n := |schedule| - 1;
      PlayedKeeps(s, schedule[..n]);
      TakenKeeps(Played(s, schedule[..n]), schedule[n]);
    }
  }

  /** Nobody has been missed: the flag is set; the event, if installed, has been written; and the waker, if installed,
      has been woken or finds the flag set. */
  ghost predicate Noticed(s: State) {
    && s.requested
    && (s.install.Installed? ==> s.event && s.signals > 0)
    && (s.waker ==> s.wakes > 0 || s.seenByWaker)
  }

  /** In every interleaving of any number of requests with the installations, once all have finished nobody has been
      missed. */
  lemma NoRequestIsMissed(callers: nat, schedule: seq<Thread>)
    requires callers > 0 && Played(Start(callers), schedule).AllFinished()
    ensures Noticed(Played(Start(callers), schedule))
  {
    PlayedKeeps(Start(callers), schedule);
    assert Played(Start(callers), schedule).requests[0].Finished?;
  }

  /** Nobody is woken for nothing: without a request the flag is never set, and neither the event is written nor the
      waker woken. */
  lemma {:induction false} NothingWithoutRequest(schedule: seq<Thread>)
    ensures var s := Played(Start(0), schedule);
            !s.requested && s.signals == 0 && s.wakes == 0 && !s.seenByWaker && s.requests == [] && !s.install.Again?
  {
    if schedule != [] {
      NothingWithoutRequest(schedule[..|schedule| - 1]);
    }
  }

  /** What the worker with the waker finds when it has installed it: the flag as it was at that moment. */
  lemma {:induction false} WakerSees(callers: nat, schedule: seq<Thread>, k: nat)
    requires k < |schedule| && schedule[k] == WakerInstaller && WakerInstaller !in schedule[..k]
    ensures Played(Start(callers), schedule).waker
    ensures Played(Start(callers), schedule).seenByWaker == Played(Start(callers), schedule[..k]).requested
    decreases |schedule|
  {
    var front := schedule[..|schedule| - 1];
    if k == |front| {
      assert schedule[..k] == front;
      NoWakerYet(callers, front);
    } else {
      assert front[..k] == schedule[..k];
      WakerSees(callers, front, k);
    }
  }

  lemma {:induction false} NoWakerYet(callers: nat, schedule: seq<Thread>)
    requires WakerInstaller !in schedule
    ensures !Played(Start(callers), schedule).waker
  {
    if schedule != [] {
      NoWakerYet(callers, schedule[..|schedule| - 1]);
    }
  }

  /** The same handle if the installer did not look at the flag once the event is stored. */
  function TakenBlindly(s: State, thread: Thread): State {
    if thread.EventInstaller? && s.install.Look? then s.(install := Installed) else Taken(s, thread)
  }

  function PlayedBlindly(s: State, schedule: seq<Thread>): State {
    if schedule == [] then s
    else TakenBlindly(PlayedBlindly(s, schedule[..|schedule| - 1]), schedule[|schedule| - 1])
  }

  lemma BlindStep(s: State, schedule: seq<Thread>, thread: Thread)
    ensures PlayedBlindly(s, schedule + [thread]) == TakenBlindly(PlayedBlindly(s, schedule), thread)
  {
    assert (schedule + [thread])[..|schedule|] == schedule;
  }

  /** Without that look a request is missed: here it has finished before the event is stored, and nobody writes it. */
  lemma TheSecondLookMatters() returns (schedule: seq<Thread>)
    ensures PlayedBlindly(Start(1), schedule).AllFinished() && PlayedBlindly(Start(1), schedule).install.Installed?
    ensures !Noticed(PlayedBlindly(Start(1), schedule))
  {
    var r, i := Requester(0), EventInstaller;
    BlindStep(Start(1), [], r);
    BlindStep(Start(1), [] + [r], r);
    BlindStep(Start(1), [] + [r] + [r], r);
    BlindStep(Start(1), [] + [r] + [r] + [r], i);
    BlindStep(Start(1), [] + [r] + [r] + [r] + [i], i);
    schedule := [] + [r] + [r] + [r] + [i] + [i];
  }

  // ---------------------------------------------------------------- the handle

  class ShutdownHandle {
    var requested: bool
    var waker: bool
    var event: bool
    var wakes: nat
    var signals: nat
    var requests: seq<Request>
    var install: Install
    var seenByWaker: bool

    ghost function S(): State
      reads this
    {
      State(requested, waker, event, wakes, signals, requests, install, seenByWaker)
    }

    constructor (callers: nat)
      ensures S() == Start(callers)
    {
      requested, waker, event, wakes, signals, seenByWaker := false, false, false, 0, 0, false;
      requests := seq(callers, _ => SetFlag);
      install := Store;
    }

    /** The next action of a call of `request`. */
    method Advance(request: Request) returns (next: Request)
      modifies this`requested, this`wakes, this`signals
      ensures S() == Acted(old(S()), request) && next == Next(request)
    {
      match request {
        case SetFlag =>
          requested := true;
          next := Wake;
        case Wake =>
          if waker {
            wakes := wakes + 1;
          }
          next := Signal;
        case Signal =>
          if event {
            signals := signals + 1;
          }
          next := Finished;
        case Finished => next := Finished;
      }
    }

    method StepRequester(i: nat)
      requires i < |requests|
      modifies this`requested, this`wakes, this`signals, this`requests
      ensures S() == AfterRequester(old(S()), i)
    {
      var next := Advance(requests[i]);
      requests := requests[i := next];
    }

    method StepInstaller()
      modifies this`requested, this`wakes, this`signals, this`event, this`install
      ensures S() == AfterInstaller(old(S()))
    {
      match install {
        case Store =>
          event := true;
          install := Look;
        case Look => install := if requested then Again(SetFlag) else Installed;
        case Again(request) =>
          var next := Advance(request);
          install := if next.Finished? then Installed else Again(next);
        case Installed =>
      }
    }

    method InstallWaker()
      modifies this`waker, this`seenByWaker
      ensures S() == AfterWaker(old(S()))
    {
      if !waker {
        waker := true;
        seenByWaker := requested;
      }
    }

    method Step(thread: Thread)
      modifies this
      ensures S() == Taken(old(S()), thread)
    {
      match thread {
        case Requester(i) =>
          if i < |requests| {
            StepRequester(i);
          }
        case EventInstaller => StepInstaller();
        case WakerInstaller => InstallWaker();
      }
    }

    method Run(schedule: seq<Thread>)
      modifies this
      ensures S() == Played(old(S()), schedule)
    {
      ghost var start := S();
      for k := 0 to |schedule|
        invariant S() == Played(start, schedule[..k])
      {
        Step(schedule[k]);
        assert schedule[..k + 1][..k] == schedule[..k];
      }
      AllOf(schedule);
    }
  }
}
