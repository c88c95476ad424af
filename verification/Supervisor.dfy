/** The master's restart supervisor (master/src/main.rs). Times are milliseconds; one turn of the loop reads the clock
    once. The operating system is a script: what `waitpid` reports, whether `kill` works, which pid `fork` gives. */
module Supervisor {
  import opened Common

  const RESTART_BASE_DELAY: nat := 100
  const RESTART_MAX_DELAY: nat := 10_000
  const RESTART_STABLE_WINDOW: nat := 30_000
  const U32_MAX: nat := 0xFFFF_FFFF

  type Pid = nat

  datatype WorkerSlot = WorkerSlot(pid: Option<Pid>, failures: nat, startedAt: nat, restartAt: Option<nat>)

  datatype WaitStatus =
    | StillAlive
    | Exited(pid: Pid, code: int)
    | Signaled(pid: Pid)
    | OtherStatus
    | NoChildren
    | WaitFailed

  datatype Outcome = Supervising | Ok | Failed

  function Min(a: nat, b: nat): nat { if a < b then a else b }

  function SaturatingSub(a: nat, b: nat): nat { if a < b then 0 else a - b }

  function SaturatingNext(n: nat): nat { if n >= U32_MAX then U32_MAX else n + 1 }

  function Power2(n: nat): nat { if n == 0 then 1 else 2 * Power2(n - 1) }

  function RestartDelay(failures: nat): nat {
    Min(RESTART_BASE_DELAY * Power2(Min(SaturatingSub(failures, 1), 16)), RESTART_MAX_DELAY)
  }

  lemma {:induction false} PowerGrows(m: nat, n: nat)
    requires m <= n
    ensures Power2(m) <= Power2(n)
  {
    if m < n {
      PowerGrows(m, n - 1);
    }
  }

  /** Cutting the exponent off at sixteen changes nothing: the delay doubles with every failure until the maximum. */
  lemma DelayDoubles(k: nat)
    requires k > 0
    ensures RestartDelay(k) == Min(RESTART_BASE_DELAY * Power2(k - 1), RESTART_MAX_DELAY)
    ensures RESTART_BASE_DELAY <= RestartDelay(k) <= RestartDelay(k + 1) <= RESTART_MAX_DELAY
  {
    assert Power2(7) == 128;
    PowerGrows(0, k - 1);
    PowerGrows(k - 1, k);
    if k - 1 >= 7 {
      PowerGrows(7, k - 1);
      PowerGrows(7, 16);
    }
  }

  /** How many failures in a row, the last of them included, ended less than the stable window after their start; a
      longer run before a failure starts counting anew. */
  ghost function Streak(uptimes: seq<nat>): nat {
    if uptimes == [] then 0
    else if uptimes[|uptimes| - 1] >= RESTART_STABLE_WINDOW then 1
    else SaturatingNext(Streak(uptimes[..|uptimes| - 1]))
  }

  /** A streak of `k` is `k` failures of which all but the first came quickly; and it is as long as it can be. */
  lemma {:induction false} StreakMeaning(uptimes: seq<nat>)
    requires |uptimes| <= U32_MAX
    ensures var k := Streak(uptimes);
            && k <= |uptimes| && (uptimes != [] ==> k > 0)
            && (forall j | |uptimes| - k < j < |uptimes| :: uptimes[j] < RESTART_STABLE_WINDOW)
            && (k < |uptimes| ==> uptimes[|uptimes| - k] >= RESTART_STABLE_WINDOW)
  {
    if uptimes != [] && uptimes[|uptimes| - 1] < RESTART_STABLE_WINDOW {
      var front := uptimes[..|uptimes| - 1];
      StreakMeaning(front);
      var k := Streak(uptimes);
      assert k == Streak(front) + 1;
      forall j | |uptimes| - k < j < |uptimes| ensures uptimes[j] < RESTART_STABLE_WINDOW {
        if j < |front| {
          assert front[j] == uptimes[j];
        }
      }
    }
  }

  /** The end of a child: when, whether it failed, and whether the master was stopping. */
  datatype End = End(at: nat, failed: bool, stopping: bool)

  /** What has happened to one slot: how long each failed run lasted, when the last one failed, when the last one was
      started, and how every one of its children has ended. */
  datatype History = History(uptimes: seq<nat>, failedAt: nat, startedAt: nat, ends: seq<End>)

  /** The last of the slot's children that have ended failed, and was to be replaced. */
  ghost predicate FailedLast(h: History) {
    h.ends != [] && h.ends[|h.ends| - 1].failed && !h.ends[|h.ends| - 1].stopping
  }

  /** A slot is live, or waits out its delay since its last failure, or is over; never two of these. */
  ghost predicate SlotOk(w: WorkerSlot, h: History) {
    && !(w.pid.Some? && w.restartAt.Some?)
    && w.failures == Streak(h.uptimes)
    && (w.restartAt.Some? ==> w.failures > 0 && w.restartAt.value == h.failedAt + RestartDelay(w.failures))
    && (w.pid.Some? ==> w.startedAt == h.startedAt)
    && (w.pid.None? ==> h.ends != [] && (w.restartAt.Some? <==> FailedLast(h)))
    && (w.restartAt.Some? ==> h.failedAt == h.ends[|h.ends| - 1].at)
  }

  /** So whoever is neither alive nor to be restarted ended well, or while the master was stopping; and whoever failed
      otherwise is restarted when the delay for its failures in a row is over. */
  lemma WaitsOrIsOver(w: WorkerSlot, h: History)
    requires SlotOk(w, h) && w.pid.None?
    ensures h.ends != []
    ensures var end := h.ends[|h.ends| - 1];
            w.restartAt == if end.failed && !end.stopping then Some(end.at + RestartDelay(Streak(h.uptimes))) else None
  {
  }

  ghost predicate AllOk(workers: seq<WorkerSlot>, histories: seq<History>) {
    |histories| == |workers| && forall i | 0 <= i < |workers| :: SlotOk(workers[i], histories[i])
  }

  lemma UpdateOk(workers: seq<WorkerSlot>, histories: seq<History>, i: nat, w: WorkerSlot, h: History)
    requires AllOk(workers, histories) && i < |workers| && SlotOk(w, h)
    ensures AllOk(workers[i := w], histories[i := h])
  {
  }

  /** A slot whose child has ended. */
  function Ended(w: WorkerSlot, stopping: bool, failed: bool, now: nat): WorkerSlot {
    if stopping || !failed then w.(pid := None)
    else
      var failures := SaturatingNext(if SaturatingSub(now, w.startedAt) >= RESTART_STABLE_WINDOW then 0
        else w.failures);
      w.(pid := None, failures := failures, restartAt := Some(now + RestartDelay(failures)))
  }

  /** A child has ended: after a failure its slot is scheduled for the delay that its failures in a row ask for; a run
      of at least the stable window before it makes it the first of them. */
  ghost predicate EndsSlot(before: WorkerSlot, after: WorkerSlot, restarts: bool, now: nat) {
    && after.pid == None
    && if !restarts then after == before.(pid := None)
       else
         && after.restartAt == Some(now + RestartDelay(after.failures))
         && after.failures ==
            (if now >= before.startedAt + RESTART_STABLE_WINDOW then 1 else Min(before.failures + 1, U32_MAX))
  }

  ghost predicate EndsOne(before: seq<WorkerSlot>, after: seq<WorkerSlot>, pid: Pid, restarts: bool, now: nat) {
    |after| == |before| && exists i: nat :: Holds(before, i, pid) && EndsSlot(before[i], after[i], restarts, now)
  }

  ghost function EndedHistory(h: History, stopping: bool, failed: bool, now: nat): History {
    var longer := h.(ends := h.ends + [End(now, failed, stopping)]);
    if stopping || !failed then longer
    else longer.(uptimes := h.uptimes + [SaturatingSub(now, h.startedAt)], failedAt := now)
  }

  lemma EndedIsOk(w: WorkerSlot, h: History, stopping: bool, failed: bool, now: nat)
    requires SlotOk(w, h) && w.pid.Some?
    ensures SlotOk(Ended(w, stopping, failed, now), EndedHistory(h, stopping, failed, now))
  {
    if !stopping && failed {
      var longer := EndedHistory(h, stopping, failed, now).uptimes;
      assert longer[..|longer| - 1] == h.uptimes;
    }
  }

  function StatusPid(status: WaitStatus): Option<Pid> {
    if status.Exited? || status.Signaled? then Some(status.pid) else None
  }

  function StatusFailed(status: WaitStatus): bool { !(status.Exited? && status.code == 0) }

  /** One restart of a worker: which slot, when, how long its failed runs had lasted, when the last of them ended. */
  datatype Spawn = Spawn(slot: nat, at: nat, uptimes: seq<nat>, failedAt: nat)

  /** A restart comes no earlier than the delay for the failures in a row after the last of them. */
  ghost predicate InTime(s: Spawn) { Streak(s.uptimes) > 0 && s.at >= s.failedAt + RestartDelay(Streak(s.uptimes)) }

  ghost predicate Holds(workers: seq<WorkerSlot>, i: nat, pid: Pid) { i < |workers| && workers[i].pid == Some(pid) }

  /** The children alive are those of the slots, one each. */
  ghost predicate Tracks(workers: seq<WorkerSlot>, alive: set<Pid>) {
    && (forall i | 0 <= i < |workers| && workers[i].pid.Some? :: workers[i].pid.value in alive)
    && (forall i, j | 0 <= i < j < |workers| && workers[i].pid.Some? :: workers[i].pid != workers[j].pid)
    && (forall pid | pid in alive :: exists i :: Holds(workers, i, pid))
  }

  lemma EndTracks(workers: seq<WorkerSlot>, alive: set<Pid>, i: nat, pid: Pid, w: WorkerSlot)
    requires Tracks(workers, alive) && Holds(workers, i, pid) && w.pid.None?
    ensures Tracks(workers[i := w], alive - {pid})
  {
    var after := workers[i := w];
    forall other | other in alive - {pid} ensures exists j :: Holds(after, j, other) {
      var j :| Holds(workers, j, other);
      assert Holds(after, j, other);
    }
  }

  lemma StartTracks(workers: seq<WorkerSlot>, alive: set<Pid>, i: nat, pid: Pid, w: WorkerSlot)
    requires Tracks(workers, alive) && i < |workers| && workers[i].pid.None? && pid !in alive && w.pid == Some(pid)
    ensures Tracks(workers[i := w], alive + {pid})
  {
    var after := workers[i := w];
    assert Holds(after, i, pid);
    forall other | other in alive ensures exists j :: Holds(after, j, other) {
      var j :| Holds(workers, j, other);
      assert Holds(after, j, other);
    }
  }

  // ---------------------------------------------------------------- what one turn of the loop does

  /** The master and its children: those not reported as ended. */
  datatype Fleet = Fleet(workers: seq<WorkerSlot>, stopping: bool, alive: set<Pid>)

  /** What one turn meets: the time, whether shutdown is requested and the workers can be signalled, what the system
      says of the children, and the pid of each slot's new child, if it gets one. */
  datatype Happening =
    Happening(now: nat, requested: bool, killWorks: bool, status: WaitStatus, forks: seq<Option<Pid>>)

  function ForkFor(forks: seq<Option<Pid>>, i: nat): Option<Pid> { if i < |forks| then forks[i] else None }

  predicate Due(w: WorkerSlot, now: nat) { w.pid.None? && w.restartAt.Some? && w.restartAt.value <= now }

  function Started(w: WorkerSlot, fork: Option<Pid>, now: nat): WorkerSlot { WorkerSlot(fork, w.failures, now, None) }

  /** The status is of a child that the master knows. */
  predicate Known(status: WaitStatus, alive: set<Pid>) { StatusPid(status).Some? && StatusPid(status).value in alive }

  /** The slot of a child that has ended is free; unless the master is stopping, a failure schedules a restart. */
  ghost predicate Reaped(before: Fleet, after: Fleet, pid: Pid, failed: bool, now: nat) {
    && after.stopping == before.stopping && after.alive == before.alive - {pid}
    && exists i :: ReapedAt(before, after, i, pid, failed, now)
  }

  ghost predicate ReapedAt(before: Fleet, after: Fleet, i: nat, pid: Pid, failed: bool, now: nat) {
    Holds(before.workers, i, pid)
    && after.workers == before.workers[i := Ended(before.workers[i], before.stopping, failed, now)]
  }

  /** The first `n` slots: exactly those whose delay is over have a new child. */
  ghost predicate Restarted(before: Fleet, after: Fleet, n: nat, forks: seq<Option<Pid>>, now: nat) {
    && after.stopping == before.stopping && |after.workers| == |before.workers| && n <= |before.workers|
    && (forall i | 0 <= i < |before.workers| ::
          after.workers[i] ==
            if i < n && Due(before.workers[i], now) then Started(before.workers[i], ForkFor(forks, i), now)
            else before.workers[i])
    && (forall i | 0 <= i < n && Due(before.workers[i], now) :: ForkFor(forks, i).Some?)
  }

  lemma RestartedNext(before: Fleet, at: Fleet, after: Fleet, i: nat, forks: seq<Option<Pid>>, now: nat)
    requires Restarted(before, at, i, forks, now) && i < |before.workers| && after.stopping == at.stopping
    requires Due(before.workers[i], now) ==> ForkFor(forks, i).Some?
    requires after.workers == if Due(before.workers[i], now)
                              then at.workers[i := Started(before.workers[i], ForkFor(forks, i), now)] else at.workers
    ensures Restarted(before, after, i + 1, forks, now)
  {
  }

  ghost predicate AllGiven(before: set<Pid>, alive: set<Pid>, forks: seq<Option<Pid>>, n: nat) {
    forall pid | pid in alive :: pid in before || GivenBefore(forks, n, pid)
  }

  lemma OneMoreGiven(before: set<Pid>, at: set<Pid>, after: set<Pid>, forks: seq<Option<Pid>>, n: nat)
    requires AllGiven(before, at, forks, n)
    requires after == at || (ForkFor(forks, n).Some? && after == at + {ForkFor(forks, n).value})
    ensures AllGiven(before, after, forks, n + 1)
  {
    forall pid | pid in after && pid !in before ensures GivenBefore(forks, n + 1, pid) {
      if pid in at {
        var j :| 0 <= j < n && ForkFor(forks, j) == Some(pid);
      } else {
        assert ForkFor(forks, n) == Some(pid);
      }
    }
  }

  /** Nothing is left to supervise. */
  ghost predicate Over(f: Fleet) {
    forall i | 0 <= i < |f.workers| :: f.workers[i].pid.None? && (f.stopping || f.workers[i].restartAt.None?)
  }

  /** The turn from the status on. */
  ghost predicate Attended(before: Fleet, after: Fleet, h: Happening, outcome: Outcome) {
    if h.status.StillAlive? || h.status.NoChildren? then Settled(before, after, h, outcome)
    else if !Known(h.status, before.alive) then after == before && outcome == Supervising
    else exists mid :: ReapedThenSettled(before, mid, after, h, outcome)
  }

  ghost predicate ReapedThenSettled(before: Fleet, mid: Fleet, after: Fleet, h: Happening, outcome: Outcome)
    requires StatusPid(h.status).Some?
  {
    Reaped(before, mid, StatusPid(h.status).value, StatusFailed(h.status), h.now) && Settled(mid, after, h, outcome)
  }

  /** Restart what is due, unless stopping; the loop is left once nothing is left to supervise. */
  ghost predicate Settled(before: Fleet, after: Fleet, h: Happening, outcome: Outcome) {
    if before.stopping then after == before && outcome == if Over(after) then Ok else Supervising
    else if outcome == Failed then exists i :: CannotStart(before, h, i)
    else
      Restarted(before, after, |before.workers|, h.forks, h.now) && outcome == if Over(after) then Ok else Supervising
  }

  /** The system gives no new child to a slot that is due (the pid of a living child is not given twice). */
  ghost predicate CannotStart(f: Fleet, h: Happening, i: nat) {
    i < |f.workers| && Due(f.workers[i], h.now)
    && match ForkFor(h.forks, i)
       case None => true
       case Some(pid) => pid in f.alive || GivenBefore(h.forks, i, pid)
  }

  ghost predicate GivenBefore(forks: seq<Option<Pid>>, n: nat, pid: Pid) {
    exists j :: 0 <= j < n && ForkFor(forks, j) == Some(pid)
  }

  /** One turn: stop if asked to, signalling every worker once; learn of one ended child; restart what is due. */
  ghost predicate TurnDone(before: Fleet, after: Fleet, h: Happening, outcome: Outcome) {
    var asked := before.(stopping := before.stopping || h.requested);
    if (asked != before && !h.killWorks) || h.status.WaitFailed? then after == asked && outcome == Failed
    else Attended(asked, after, h, outcome)
  }

  /** A run, turn by turn; all but the last leave the master supervising. */
  ghost predicate Supervised(before: Fleet, after: Fleet, script: seq<Happening>, outcome: Outcome)
    decreases |script|
  {
    if script == [] then after == before && outcome == Supervising
    else
      var n := |script| - 1;
      exists now :: Supervised(before, now, script[..n], Supervising) && TurnDone(now, after, script[n], outcome)
  }

  lemma OneMoreTurn(before: Fleet, now: Fleet, after: Fleet, script: seq<Happening>, h: Happening, outcome: Outcome)
    requires Supervised(before, now, script, Supervising) && TurnDone(now, after, h, outcome)
    ensures Supervised(before, after, script + [h], outcome)
  {
    var more := script + [h];
    assert more[..|more| - 1] == script && more[|more| - 1] == h;
  }

  lemma NobodyAlive(workers: seq<WorkerSlot>, alive: set<Pid>)
    requires Tracks(workers, alive) && forall i | 0 <= i < |workers| :: workers[i].pid.None?
    ensures alive == {}
  {
    forall pid ensures pid !in alive {
      assert forall i :: !Holds(workers, i, pid);
    }
  }

  class Master {
    var workers: seq<WorkerSlot>
    var stopping: bool
    /** The children that have not been reported as ended. */
    var alive: set<Pid>
    ghost var histories: seq<History>
    ghost var spawns: seq<Spawn>

    ghost predicate Valid()
      reads this
    {
      && AllOk(workers, histories) && Tracks(workers, alive)
      && (forall k | 0 <= k < |spawns| :: InTime(spawns[k]))
    }

    /** After the first start of every worker. */
    constructor (pids: seq<Pid>, now: nat)
      requires forall i, j | 0 <= i < j < |pids| :: pids[i] != pids[j]
      ensures Valid() && !stopping && |workers| == |pids| && spawns == []
      ensures forall i | 0 <= i < |pids| :: workers[i] == WorkerSlot(Some(pids[i]), 0, now, None)
    {
      workers := seq(|pids|, i requires 0 <= i < |pids| => WorkerSlot(Some(pids[i]), 0, now, None));
      stopping := false;
      alive := set i | 0 <= i < |pids| :: pids[i];
      histories := seq(|pids|, _ => History([], 0, now, []));
      spawns := [];
      new;
      forall pid | pid in alive ensures exists i :: Holds(workers, i, pid) {
        var i :| 0 <= i < |pids| && pids[i] == pid;
        assert Holds(workers, i, pid);
      }
    }

    ghost function F(): Fleet
      reads this
    {
      Fleet(workers, stopping, alive)
    }

    ghost method Record(i: nat, h: History)
      requires i < |histories|
      modifies this`histories
      ensures histories == old(histories)[i := h]
    {
      histories := histories[i := h];
    }

    /** A child has ended. */
    method Reap(pid: Pid, failed: bool, now: nat)
      requires Valid() && pid in alive
      modifies this`workers, this`alive, this`histories
      ensures Valid() && Reaped(old(F()), F(), pid, failed, now)
      ensures EndsOne(old(workers), workers, pid, failed && !stopping, now)
    {
      ghost var before := F();
      var i := Find(pid);
      ghost var ended := Ended(workers[i], stopping, failed, now);
      ghost var history := EndedHistory(histories[i], stopping, failed, now);
      EndedIsOk(workers[i], histories[i], stopping, failed, now);
      UpdateOk(workers, histories, i, ended, history);
      EndTracks(workers, alive, i, pid, ended);
      var w := workers[i].(pid := None);
      if !stopping && failed {
        if SaturatingSub(now, w.startedAt) >= RESTART_STABLE_WINDOW {
          w := w.(failures := 0);
        }
        w := w.(failures := SaturatingNext(w.failures));
        w := w.(restartAt := Some(now + RestartDelay(w.failures)));
      }
      assert w == ended;
      alive := alive - {pid};
      workers := workers[i := w];
      Record(i, history);
      assert ReapedAt(before, F(), i, pid, failed, now);
      assert EndsSlot(before.workers[i], w, failed && !stopping, now);
    }

    /** The first slot with the given pid. */
    method Find(pid: Pid) returns (i: nat)
      requires Valid() && pid in alive
      ensures i < |workers| && workers[i].pid == Some(pid)
      ensures forall j | 0 <= j < i :: workers[j].pid != Some(pid)
    {
      ghost var slot :| Holds(workers, slot, pid);
      i := 0;
      while workers[i].pid != Some(pid)
        invariant i < |workers| && forall j | 0 <= j < i :: workers[j].pid != Some(pid)
        invariant i <= slot
        decreases |workers| - i
      {
        i := i + 1;
      }
    }

    /** Start the worker of a slot whose delay is over, if the system gives it a child. */
    method Restart(i: nat, fork: Option<Pid>, now: nat) returns (ok: bool)
      requires Valid() && !stopping && i < |workers| && Due(workers[i], now)
      modifies this`workers, this`alive, this`histories, this`spawns
      ensures Valid()
      ensures ok == (fork.Some? && fork.value !in old(alive))
      ensures workers == if ok then old(workers)[i := Started(old(workers)[i], fork, now)] else old(workers)
      ensures alive == if ok then old(alive) + {fork.value} else old(alive)
      ensures ok ==> |spawns| == |old(spawns)| + 1 && spawns[..|old(spawns)|] == old(spawns)
      ensures ok ==> spawns[|old(spawns)|].slot == i && spawns[|old(spawns)|].at == now
    {
      if fork == None || fork.value in alive {
        return false;
      }
      var w := WorkerSlot(fork, workers[i].failures, now, None);
      UpdateOk(workers, histories, i, w, histories[i].(startedAt := now));
      spawns := spawns + [Spawn(i, now, histories[i].uptimes, histories[i].failedAt)];
      StartTracks(workers, alive, i, fork.value, w);
      alive := alive + {fork.value};
      workers := workers[i := w];
      Record(i, histories[i].(startedAt := now));
      ok := true;
    }

    method RestartDue(h: Happening) returns (ok: bool)
      requires Valid() && !stopping
      modifies this`workers, this`alive, this`histories, this`spawns
      ensures Valid() && |workers| == |old(workers)|
      ensures ok ==> Restarted(old(F()), F(), |old(workers)|, h.forks, h.now)
      ensures !ok ==> exists i :: CannotStart(old(F()), h, i)
    {
      ghost var before := F();
      for i := 0 to |workers|
        invariant Valid() && Restarted(before, F(), i, h.forks, h.now)
        invariant AllGiven(before.alive, alive, h.forks, i)
      {
        ghost var at := F();
        if workers[i].pid.None? && workers[i].restartAt.Some? && workers[i].restartAt.value <= h.now {
          ok := Restart(i, ForkFor(h.forks, i), h.now);
          if !ok {
            assert CannotStart(before, h, i);
            return;
          }
        }
        RestartedNext(before, at, F(), i, h.forks, h.now);
        OneMoreGiven(before.alive, at.alive, alive, h.forks, i);
      }
      ok := true;
    }

    method NoneLive() returns (r: bool)
      requires Valid()
      ensures r <==> forall i | 0 <= i < |workers| :: workers[i].pid.None?
      ensures r ==> alive == {}
    {
      r := true;
      for i := 0 to |workers|
        invariant r <==> forall j | 0 <= j < i :: workers[j].pid.None?
      {
        r := r && workers[i].pid.None?;
      }
      if r {
        NobodyAlive(workers, alive);
      }
    }

    method NoneScheduled() returns (r: bool)
      ensures r <==> forall i | 0 <= i < |workers| :: workers[i].restartAt.None?
    {
      r := true;
      for i := 0 to |workers|
        invariant r <==> forall j | 0 <= j < i :: workers[j].restartAt.None?
      {
        r := r && workers[i].restartAt.None?;
      }
    }

    /** The last part of a turn: restart what is due, unless stopping, and stop when there is nothing left to
        supervise. */
    method Settle(h: Happening) returns (outcome: Outcome)
      requires Valid()
      modifies this`workers, this`alive, this`histories, this`spawns
      ensures Valid() && (stopping ==> spawns == old(spawns))
      ensures Settled(old(F()), F(), h, outcome) && (outcome == Ok ==> alive == {})
    {
      var none := NoneLive();
      if stopping {
        return if none then Ok else Supervising;
      }
      var ok := RestartDue(h);
      if !ok {
        return Failed;
      }
      none := NoneLive();
      var idle := NoneScheduled();
      outcome := if none && idle then Ok else Supervising;
    }

    /** One turn of the loop. */
    method Turn(h: Happening) returns (outcome: Outcome)
      requires Valid()
      modifies this
      ensures Valid() && (stopping ==> spawns == old(spawns))
      ensures TurnDone(old(F()), F(), h, outcome) && (outcome == Ok ==> alive == {})
    {
      if h.requested && !stopping {
        stopping := true;
        if !h.killWorks {
          return Failed;
        }
      }
      if h.status.WaitFailed? {
        return Failed;
      }
      ghost var asked := F();
      if !h.status.StillAlive? && !h.status.NoChildren? {
        var pid := StatusPid(h.status);
        if pid == None || pid.value !in alive {
          return Supervising;
        }
        Reap(pid.value, StatusFailed(h.status), h.now);
        ghost var mid := F();
        outcome := Settle(h);
        assert ReapedThenSettled(asked, mid, F(), h, outcome);
      } else {
        outcome := Settle(h);
      }
    }

    /** Every run: turn after turn; restarts are in time, none happens once stopping has begun, and the master only ends
        well when no worker is alive. */
    method Supervise(script: seq<Happening>) returns (outcome: Outcome, ghost turns: nat)
      requires Valid()
      modifies this
      ensures Valid() && (old(stopping) ==> stopping && spawns == old(spawns))
      ensures turns <= |script| && Supervised(old(F()), F(), script[..turns], outcome)
      ensures (outcome == Supervising ==> turns == |script|) && (outcome == Ok ==> alive == {})
    {
      ghost var start := F();
      outcome := Supervising;
      var k := 0;
      AllOf(script);
      while k < |script| && outcome == Supervising
        invariant k <= |script| && Valid() && (start.stopping ==> stopping && spawns == old(spawns))
        invariant Supervised(start, F(), script[..k], outcome) && (outcome == Ok ==> alive == {})
      {
        ghost var before := F();
        outcome := Turn(script[k]);
        OneMoreTurn(start, before, F(), script[..k], script[k], outcome);
        TurnKeepsStopping(before, F(), script[k], outcome);
        Grow(script, k);
        k := k + 1;
      }
      turns := k;
    }
  }

  lemma TurnKeepsStopping(before: Fleet, after: Fleet, h: Happening, outcome: Outcome)
    requires TurnDone(before, after, h, outcome)
    ensures before.stopping ==> after.stopping
  {
  }

  /** What a turn does that hears nothing of an unknown child: unless the master is stopping, every slot whose delay is
      over has a new child, and no other has; and it ends exactly if nobody is alive and, unless stopping, nobody is to
      be restarted. */
  lemma TurnMeaning(before: Fleet, after: Fleet, h: Happening, outcome: Outcome, i: nat)
    requires TurnDone(before, after, h, outcome) && outcome != Failed && i < |before.workers| == |after.workers|
    requires h.status.StillAlive? || h.status.NoChildren?
    ensures var w, now := before.workers[i], after.workers[i];
            if !after.stopping && w.pid.None? && w.restartAt.Some? && w.restartAt.value <= h.now
            then now.pid.Some? && now.startedAt == h.now && now.restartAt == None && now.failures == w.failures
            else now == w
    ensures after.stopping == (before.stopping || h.requested)
    ensures outcome == Ok <==>
              forall j | 0 <= j < |after.workers| ::
                after.workers[j].pid == None && (after.stopping || after.workers[j].restartAt == None)
  {
  }
}
