/**
 A run that leaves a `start` asleep for good: thread 2 restarts a faulted client and
 tests under `lifecycle_mutex_` whether the worker has exited; before it falls asleep
 the worker, which needs no mutex for it, exits and notifies.
 */
module LostWakeup {
  import opened ClientData
  import opened ClientLifecycle
  import opened ClientControl
  import opened ClientWorld
  import opened ClientSystem
  import opened ClientTheorems
  import opened Scenarios

  // ---------------------------------------------------------------------
  // Thread 1 starts the client
  // ---------------------------------------------------------------------

  /** Thread 1 is in `start` and has come to `phase`. */
  predicate Starting1(s: Core, phase: OpenPhase) {
    && OpeningAt(s, 1, phase) && s.joiner.None? && s.handle.None? && s.workers == map[]
    && s.shared.fault == NoFault && s.calls.Keys <= {1}
  }

  lemma Claim(cfg: Config, ys: iset<System>) returns (y: System)
    requires Closed(cfg, ys)
    ensures y in ys && Starting1(y.core, ToForget)
  {
    y := SYSTEM_INITIAL;
    y := Starts(cfg, ys, y, 1, CallsStart(0));
    y := Starts(cfg, ys, y, 1, StartClaims);
  }

  lemma Open(cfg: Config, ys: iset<System>) returns (y: System)
    requires Closed(cfg, ys)
    ensures y in ys && Starting1(y.core, ToSetFlags)
  {
    y := Claim(cfg, ys);
    y := Starts(cfg, ys, y, 1, StartForgets);
    assert Starting1(y.core, ToOpen);
    y := Starts(cfg, ys, y, 1, StartOpens);
  }

  /** The worker, thread 3, is alive at `at`, and nobody is in a call. */
  ghost predicate Up(s: Core, at: Point) {
    && s.lock.None? && s.joiner.None? && s.handle == Some(3) && s.active == Some(3) && s.workers.Keys == {3}
    && WorkerOf(s, 3).Alive? && WorkerOf(s, 3).at == at && !s.stopping && !s.shared.exited
    && (forall x {:trigger CallOf(s, x)} :: CallOf(s, x).Idle?) && s.calls.Keys <= {1}
  }

  lemma Spawn(cfg: Config, ys: iset<System>) returns (y: System)
    requires Closed(cfg, ys)
    ensures y in ys && Up(y.core, AtLoop) && y.core.shared.fault == NoFault
  {
    y := Open(cfg, ys);
    y := Starts(cfg, ys, y, 1, StartSetsFlags);
    assert Starting1(y.core, ToSpawn) && !y.core.stopping && !y.core.shared.exited;
    y := Starts(cfg, ys, y, 1, StartSpawns(3));
  }

  // ---------------------------------------------------------------------
  // The worker faults
  // ---------------------------------------------------------------------

  /** Steps that only move the worker. */
  predicate JustMoves(a: WorkAction) {
    a.LoopCheck? || a.SetConnecting? || a.CheckStop? || a.Throws?
  }

  lemma UpGoesOn(cfg: Config, s: Core, at: Point, a: WorkAction)
    requires Up(s, at) && WorkerAt(at, a) && JustMoves(a)
    ensures WorkerCan(s, 3, a)
    ensures Up(WorkerDo(cfg, s, 3, a), NextPoint(cfg, s.shared, s.stopping, at, a))
    ensures WorkerDo(cfg, s, 3, a).shared.fault == s.shared.fault
  {
    var s' := WorkerDo(cfg, s, 3, a);
    assert forall x :: CallOf(s', x) == CallOf(s, x);
  }

  lemma Throw(cfg: Config, ys: iset<System>) returns (y: System)
    requires Closed(cfg, ys)
    ensures y in ys && Up(y.core, AtCaught) && y.core.shared.fault == NoFault
  {
    y := Spawn(cfg, ys);
    UpGoesOn(cfg, y.core, AtLoop, LoopCheck);
    y := Works(cfg, ys, y, 3, LoopCheck);
    UpGoesOn(cfg, y.core, AtConnecting, SetConnecting);
    y := Works(cfg, ys, y, 3, SetConnecting);
    UpGoesOn(cfg, y.core, AtCheckBeforeConfigure, CheckStop);
    y := Works(cfg, ys, y, 3, CheckStop);
    UpGoesOn(cfg, y.core, AtConfigure, Throws);
    y := Works(cfg, ys, y, 3, Throws);
  }

  lemma Fault(cfg: Config, ys: iset<System>) returns (y: System)
    requires Closed(cfg, ys)
    ensures y in ys && Up(y.core, AtFinish) && Faulty(y.core.shared)
  {
    y := Throw(cfg, ys);
    var s := y.core;
    y := Works(cfg, ys, y, 3, Catches);
    assert forall x :: CallOf(y.core, x) == CallOf(s, x);
  }

  // ---------------------------------------------------------------------
  // Thread 2 misses the notification
  // ---------------------------------------------------------------------

  /** Thread 2 has found the worker faulted and not exited, and is about to sleep. */
  ghost predicate Dozed(s: Core, at: Point) {
    && s.lock == Some(Holder(2, Dozing(0))) && s.workers.Keys == {3} && WorkerOf(s, 3).Alive?
    && WorkerOf(s, 3).at == at && (forall x {:trigger CallOf(s, x)} :: x != 2 ==> CallOf(s, x).Idle?)
  }

  lemma Doze2(cfg: Config, ys: iset<System>) returns (y: System)
    requires Closed(cfg, ys)
    ensures y in ys && Dozed(y.core, AtFinish)
  {
    y := Fault(cfg, ys);
    var s := y.core;
    y := Starts(cfg, ys, y, 2, CallsStart(0));
    y := Starts(cfg, ys, y, 2, StartDozes);
    assert forall x {:trigger CallOf(y.core, x)} :: x != 2 ==> CallOf(y.core, x) == CallOf(s, x);
    assert WorkerOf(y.core, 3) == WorkerOf(s, 3);
  }

  lemma DozedGoesOn(cfg: Config, s: Core, at: Point, a: WorkAction)
    requires Dozed(s, at) && WorkerAt(at, a) && (a.ClosesLast? || a.MarksExited?)
    ensures WorkerCan(s, 3, a) && Dozed(WorkerDo(cfg, s, 3, a), NextPoint(cfg, s.shared, s.stopping, at, a))
  {
    var s' := WorkerDo(cfg, s, 3, a);
    assert forall x :: CallOf(s', x) == CallOf(s, x);
  }

  lemma Exit(cfg: Config, ys: iset<System>) returns (y: System)
    requires Closed(cfg, ys)
    ensures y in ys && Dozed(y.core, AtLast)
  {
    y := Doze2(cfg, ys);
    DozedGoesOn(cfg, y.core, AtFinish, ClosesLast(true));
    y := Works(cfg, ys, y, 3, ClosesLast(true));
    DozedGoesOn(cfg, y.core, AtExit, MarksExited);
    y := Works(cfg, ys, y, 3, MarksExited);
  }

  lemma Notified(cfg: Config, ys: iset<System>) returns (y: System)
    requires Closed(cfg, ys)
    ensures y in ys && y.core.lock == Some(Holder(2, Dozing(0)))
    ensures forall x {:trigger CallOf(y.core, x)} :: x != 2 ==> CallOf(y.core, x).Idle? && !IsAlive(y.core, x)
  {
    y := Exit(cfg, ys);
    var s := y.core;
    y := Works(cfg, ys, y, 3, Ends);
    assert forall x :: CallOf(y.core, x) == CallOf(s, x);
  }

  lemma FallAsleep(cfg: Config, ys: iset<System>) returns (y: System)
    requires Closed(cfg, ys)
    ensures y in ys && Unnotified(y.core, 2)
    ensures forall x {:trigger CallOf(y.core, x)} :: x != 2 ==> CallOf(y.core, x).Idle? && !IsAlive(y.core, x)
  {
    y := Notified(cfg, ys);
    var s := y.core;
    y := Starts(cfg, ys, y, 2, StartSleeps);
    assert forall x {:trigger CallOf(y.core, x)} :: x != 2 ==> CallOf(y.core, x) == CallOf(s, x);
  }

  /** Every client can reach a state in which a `start` sleeps and nobody is left to
      wake it. */
  lemma StartMaySleepForever(cfg: Config)
    requires ValidConfig(cfg)
    ensures exists moves, y :: Reaches(cfg, moves, y) && Stuck(cfg, y)
  {
    var ys := ReachableSet(cfg);
    var y := FallAsleep(cfg, ys);
    var moves :| Reaches(cfg, moves, y);
    ProgressExactlyWhen(cfg, moves, y, CHOICE);
    assert Busy(y.core, 2);
    forall x | Busy(y.core, x) ensures Unnotified(y.core, x) {
      var _ := CallOf(y.core, x);
    }
  }
}
