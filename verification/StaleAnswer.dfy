/**
 A run in which `wait_for_first_sample` answers for a later run than the one it
 was asked in: thread 2 asks while thread 1 opens a run whose worker cannot be
 created; the number given back is taken again by the next run, and that run's
 first sample satisfies thread 2.
 */
module StaleAnswer {
  import opened Sequence
  import opened ClientData
  import opened StreamHistory
  import opened ClientLifecycle
  import opened ClientAttempts
  import opened ClientWorld
  import opened ClientSystem
  import opened Scenarios

  const RECORD := RawRecord(1, 1, 0, Axes(0, 0, 0), Axes(0, 0, 0))

  // ---------------------------------------------------------------------
  // Thread 1 opens a run
  // ---------------------------------------------------------------------

  /** No record has been seen and no time has passed. */
  predicate Untouched(w: World) {
    !w.d.ft.hasLast && w.h.clock == NEVER && w.d.lastDeliveryAt == NEVER
  }

  predicate NoWorker(s: Core) {
    && s.joiner.None? && s.handle.None? && s.active.None? && s.workers == map[] && 3 !in s.calls
    && s.shared.fault == NoFault
  }

  predicate Numbers(d: Shared, generation: nat, current: nat, attempts: seq<Attempt>) {
    d.generation == generation && d.delivered == 0 && d.current == current && d.attempts == attempts
  }

  /** Nothing runs; every attempt so far was undone. */
  predicate AtRest(s: Core, attempts: seq<Attempt>) {
    && s.lock.None? && NoWorker(s) && !s.stopping && s.shared.exited && CallOf(s, 1).Idle?
    && Numbers(s.shared, 0, 0, attempts)
  }

  predicate BlankSaved(saved: Saved) {
    && saved.exited && !saved.stopping && saved.fault == NoFault && saved.generation == 0 && saved.delivered == 0
    && saved.current == 0
  }

  /** Thread 1 holds `lifecycle_mutex_` and its start has come to `phase`. */
  predicate Starting(s: Core, phase: OpenPhase) {
    OpeningAt(s, 1, phase) && BlankSaved(s.lock.value.section.saved) && NoWorker(s)
  }

  predicate Entered(s: Core, attempts: seq<Attempt>) {
    Starting(s, ToForget) && !s.stopping && s.shared.exited && Numbers(s.shared, 0, 0, attempts)
  }

  predicate Opened(s: Core, attempts: seq<Attempt>) {
    && Starting(s, ToSetFlags) && !s.stopping && s.shared.exited
    && Numbers(s.shared, 1, |attempts| + 1, attempts + [Attempt(1, Undecided, false)])
  }

  lemma EnterRun(cfg: Config, ys: iset<System>, y: System, attempts: seq<Attempt>) returns (y': System)
    requires Closed(cfg, ys) && y in ys && AtRest(y.core, attempts) && Untouched(y.world)
    ensures y' in ys && Entered(y'.core, attempts) && Untouched(y'.world)
    ensures CallOf(y'.core, 2) == CallOf(y.core, 2)
  {
    y' := Starts(cfg, ys, y, 1, CallsStart(0));
    y' := Starts(cfg, ys, y', 1, StartClaims);
  }

  lemma OpenRun(cfg: Config, ys: iset<System>, y: System, attempts: seq<Attempt>) returns (y': System)
    requires Closed(cfg, ys) && y in ys && Entered(y.core, attempts) && Untouched(y.world)
    ensures y' in ys && Opened(y'.core, attempts) && Untouched(y'.world) && y'.kept.at == NEVER
    ensures CallOf(y'.core, 2) == CallOf(y.core, 2)
  {
    y' := Starts(cfg, ys, y, 1, StartForgets);
    assert Untouched(y'.world) && y'.kept.at == NEVER;
    assert Starting(y'.core, ToOpen) && !y'.core.stopping && y'.core.shared == y.core.shared;
    y' := Starts(cfg, ys, y', 1, StartOpens);
  }

  lemma RaiseFlags(cfg: Config, ys: iset<System>, y: System, attempts: seq<Attempt>) returns (y': System)
    requires Closed(cfg, ys) && y in ys && Opened(y.core, attempts)
    ensures y' in ys && y'.world == y.world && y'.kept == y.kept && CallOf(y'.core, 2) == CallOf(y.core, 2)
    ensures Starting(y'.core, ToSpawn) && !y'.core.stopping && !y'.core.shared.exited
    ensures Numbers(y'.core.shared, 1, |attempts| + 1, attempts + [Attempt(1, Undecided, false)])
  {
    y' := Starts(cfg, ys, y, 1, StartSetsFlags);
  }

  // ---------------------------------------------------------------------
  // Thread 2 asks, and the run is undone
  // ---------------------------------------------------------------------

  lemma Ask(cfg: Config, ys: iset<System>, y: System) returns (y': System)
    requires Closed(cfg, ys) && y in ys && Opened(y.core, []) && CallOf(y.core, 2).Idle?
    ensures y' in ys && Opened(y'.core, []) && CallOf(y'.core, 2) == Waiting(1, 1, false)
    ensures y'.world == y.world && y'.kept == y.kept
  {
    y' := Asks(cfg, ys, y, 2, CallsWait);
    y' := Asks(cfg, ys, y', 2, WaitCaptures);
  }

  lemma LowerFlags(cfg: Config, ys: iset<System>, y: System) returns (y': System)
    requires Closed(cfg, ys) && y in ys && Starting(y.core, ToSpawn)
    ensures y' in ys && y'.world == y.world && y'.kept == y.kept && CallOf(y'.core, 2) == CallOf(y.core, 2)
    ensures Starting(y'.core, ToUndoPace) && !y'.core.stopping && y'.core.shared == y.core.shared.(exited := true)
  {
    y' := Starts(cfg, ys, y, 1, StartFails);
    y' := Undoes(cfg, ys, y', 1, UndoesFlags);
  }

  lemma PutPaceBack(cfg: Config, ys: iset<System>, y: System) returns (y': System)
    requires Closed(cfg, ys) && y in ys && Starting(y.core, ToUndoPace) && Untouched(y.world) && y.kept.at == NEVER
    ensures y' in ys && Untouched(y'.world) && CallOf(y'.core, 2) == CallOf(y.core, 2)
    ensures Starting(y'.core, ToUndoData) && y'.core.stopping == y.core.stopping && y'.core.shared == y.core.shared
  {
    y' := Undoes(cfg, ys, y, 1, UndoesPace);
  }

  lemma PutDataBack(cfg: Config, ys: iset<System>, y: System) returns (y': System)
    requires Closed(cfg, ys) && y in ys && Starting(y.core, ToUndoData) && Untouched(y.world) && y.core.shared.exited
    requires Numbers(y.core.shared, 1, 1, [Attempt(1, Undecided, false)])
    ensures y' in ys && Untouched(y'.world) && CallOf(y'.core, 2) == CallOf(y.core, 2)
    ensures Starting(y'.core, ToUndoLatch) && y'.core.stopping == y.core.stopping && y'.core.shared.exited
    ensures Numbers(y'.core.shared, 0, 0, [Attempt(1, Undone, false)])
  {
    y' := Undoes(cfg, ys, y, 1, UndoesData);
    assert SetFate([Attempt(1, Undecided, false)], Undone) == [Attempt(1, Undone, false)];
  }

  lemma PutLatchBack(cfg: Config, ys: iset<System>, y: System, attempts: seq<Attempt>) returns (y': System)
    requires Closed(cfg, ys) && y in ys && Starting(y.core, ToUndoLatch) && Untouched(y.world) && y.core.shared.exited
    requires !y.core.stopping && Numbers(y.core.shared, 0, 0, attempts)
    ensures y' in ys && Untouched(y'.world) && CallOf(y'.core, 2) == CallOf(y.core, 2)
    ensures AtRest(y'.core, attempts)
  {
    y' := Undoes(cfg, ys, y, 1, UndoesLatch);
    assert Starting(y'.core, ToUndoPublish) && Untouched(y'.world);
    y' := Undoes(cfg, ys, y', 1, UndoesPublish);
  }

  /** Thread 2 waits under the number of an attempt that is gone. */
  lemma Deserted(cfg: Config, ys: iset<System>) returns (y: System)
    requires Closed(cfg, ys)
    ensures y in ys && AtRest(y.core, [Attempt(1, Undone, false)]) && Untouched(y.world)
    ensures CallOf(y.core, 2) == Waiting(1, 1, false)
  {
    y := SYSTEM_INITIAL;
    y := EnterRun(cfg, ys, y, []);
    y := OpenRun(cfg, ys, y, []);
    y := Ask(cfg, ys, y);
    y := RaiseFlags(cfg, ys, y, []);
    assert [] + [Attempt(1, Undecided, false)] == [Attempt(1, Undecided, false)];
    y := LowerFlags(cfg, ys, y);
    y := PutPaceBack(cfg, ys, y);
    y := PutDataBack(cfg, ys, y);
    y := PutLatchBack(cfg, ys, y, [Attempt(1, Undone, false)]);
  }

  // ---------------------------------------------------------------------
  // The next run delivers
  // ---------------------------------------------------------------------

  /** The worker of the second attempt, thread 3, stands at `at`; thread 2 still
      waits. */
  predicate Running(s: Core, at: Point) {
    && WorkerOf(s, 3).Alive? && WorkerOf(s, 3).at == at && 3 in s.workers && 3 !in s.calls
    && !s.stopping && s.shared.fault == NoFault && s.shared.generation == 1 && s.shared.current == 2
    && |s.shared.attempts| == 2 && s.shared.attempts[0] == Attempt(1, Undone, false)
    && CallOf(s, 2) == Waiting(1, 1, false)
  }

  predicate Tame(a: WorkAction) {
    || a.LoopCheck? || a.SetConnecting? || a.CheckStop? || a.Configured? || a.StartStream? || a.ResetTrackers?
    || a.GetsRecord? || a.HandlesRecord? || a.CallbackReturns? || a.CompletesDelivery?
  }

  lemma RunningGoesOn(cfg: Config, s: Core, a: WorkAction)
    requires WorkerOf(s, 3).Alive? && Running(s, WorkerOf(s, 3).at) && WorkerAt(WorkerOf(s, 3).at, a) && Tame(a)
    ensures WorkerCan(s, 3, a)
    ensures Running(WorkerDo(cfg, s, 3, a), NextPoint(cfg, s.shared, s.stopping, WorkerOf(s, 3).at, a))
    ensures s.shared.configured || a.Configured? ==> WorkerDo(cfg, s, 3, a).shared.configured
    ensures a.CompletesDelivery? ==> WorkerDo(cfg, s, 3, a).shared.delivered == 1
  {
  }

  predicate Calibrated(w: World) {
    w.d.health.configuration.Some? && ValidCalibration(w.d.health.configuration.value.calibration)
  }

  lemma Ready(cfg: Config, ys: iset<System>) returns (y: System)
    requires Closed(cfg, ys)
    ensures y in ys && Starting(y.core, ToSpawn) && !y.core.stopping && Untouched(y.world)
    ensures Numbers(y.core.shared, 1, 2, [Attempt(1, Undone, false), Attempt(1, Undecided, false)])
    ensures CallOf(y.core, 2) == Waiting(1, 1, false)
  {
    var attempts := [Attempt(1, Undone, false)];
    y := Deserted(cfg, ys);
    y := EnterRun(cfg, ys, y, attempts);
    y := OpenRun(cfg, ys, y, attempts);
    y := RaiseFlags(cfg, ys, y, attempts);
    assert attempts + [Attempt(1, Undecided, false)] == [Attempt(1, Undone, false), Attempt(1, Undecided, false)];
  }

  lemma Spawn(cfg: Config, ys: iset<System>) returns (y: System)
    requires Closed(cfg, ys)
    ensures y in ys && Running(y.core, AtLoop) && Untouched(y.world)
  {
    y := Ready(cfg, ys);
    y := Starts(cfg, ys, y, 1, StartSpawns(3));
  }

  lemma Connect(cfg: Config, ys: iset<System>) returns (y: System)
    requires Closed(cfg, ys)
    ensures y in ys && Running(y.core, AtConfigure) && Untouched(y.world)
  {
    y := Spawn(cfg, ys);
    RunningGoesOn(cfg, y.core, LoopCheck);
    y := Works(cfg, ys, y, 3, LoopCheck);
    RunningGoesOn(cfg, y.core, SetConnecting);
    y := Works(cfg, ys, y, 3, SetConnecting);
    RunningGoesOn(cfg, y.core, CheckStop);
    y := Works(cfg, ys, y, 3, CheckStop);
  }

  lemma Calibrate(cfg: Config, ys: iset<System>) returns (y: System)
    requires Closed(cfg, ys)
    ensures y in ys && Running(y.core, AtCheckBeforeConnect) && Untouched(y.world) && Calibrated(y.world)
    ensures y.core.shared.configured
  {
    y := Connect(cfg, ys);
    RunningGoesOn(cfg, y.core, Configured);
    y := Works(cfg, ys, y, 3, Configured);
  }

  lemma Stream(cfg: Config, ys: iset<System>) returns (y: System)
    requires Closed(cfg, ys)
    ensures y in ys && Running(y.core, AtTracking) && Untouched(y.world) && Calibrated(y.world)
    ensures y.core.shared.configured
  {
    y := Calibrate(cfg, ys);
    RunningGoesOn(cfg, y.core, CheckStop);
    y := Works(cfg, ys, y, 3, CheckStop);
    RunningGoesOn(cfg, y.core, StartStream(true));
    y := Works(cfg, ys, y, 3, StartStream(true));
  }

  /** The trackers are fresh, so the next record is a first one. */
  predicate Expecting(w: World) {
    !w.d.ft.hasLast && !w.d.rdt.hasLast && w.d.lastDeliveryAt == NEVER && Calibrated(w)
  }

  lemma Track(cfg: Config, ys: iset<System>) returns (y: System)
    requires Closed(cfg, ys)
    ensures y in ys && Running(y.core, AtReceive(false)) && Expecting(y.world) && y.core.shared.configured
    ensures y.world.h.clock == NEVER
  {
    y := Stream(cfg, ys);
    RunningGoesOn(cfg, y.core, ResetTrackers);
    y := Works(cfg, ys, y, 3, ResetTrackers);
  }

  lemma Listen(cfg: Config, ys: iset<System>) returns (y: System)
    requires Closed(cfg, ys)
    ensures y in ys && Running(y.core, AtWaiting(false)) && Expecting(y.world) && y.core.shared.configured
    ensures y.world.h.clock == NEVER
  {
    y := Track(cfg, ys);
    RunningGoesOn(cfg, y.core, CheckStop);
    y := Works(cfg, ys, y, 3, CheckStop);
  }

  lemma TimePasses(cfg: Config, w: World, now: real)
    requires Expecting(w)
    ensures Expecting(Perform(cfg, w, Two(Tick(now), WellFormed)))
  {
  }

  lemma Receive(cfg: Config, ys: iset<System>) returns (y: System)
    requires Closed(cfg, ys)
    ensures y in ys && Running(y.core, AtRecord(RECORD, 1.0)) && Expecting(y.world) && y.core.shared.configured
  {
    y := Listen(cfg, ys);
    RunningGoesOn(cfg, y.core, GetsRecord(RECORD, 1.0));
    TimePasses(cfg, y.world, 1.0);
    y := Works(cfg, ys, y, 3, GetsRecord(RECORD, 1.0));
  }

  lemma FirstRecordIsDelivered(cfg: Config, w: World)
    requires Expecting(w)
    ensures Observe(cfg, w.d, RECORD, 1.0).1 == Some(Verdict(true, None))
  {
  }

  lemma Deliver(cfg: Config, ys: iset<System>) returns (y: System)
    requires Closed(cfg, ys)
    ensures y in ys && Running(y.core, AtReceive(true)) && y.core.shared.delivered == 1
  {
    y := Receive(cfg, ys);
    FirstRecordIsDelivered(cfg, y.world);
    var handles := HandlesRecord(Verdict(true, None), MakeSample(RECORD, y.world.d.health.configuration.value, 1.0));
    RunningGoesOn(cfg, y.core, handles);
    y := Works(cfg, ys, y, 3, handles);
    RunningGoesOn(cfg, y.core, CallbackReturns);
    y := Works(cfg, ys, y, 3, CallbackReturns);
    RunningGoesOn(cfg, y.core, CompletesDelivery);
    y := Works(cfg, ys, y, 3, CompletesDelivery);
  }

  /** Thread 2 is told true, but not about the attempt it asked in. */
  ghost predicate Stale(y: System) {
    && CallOf(y.core, 2).Waiting? && WaitAnswer(y.core, 2)
    && 0 < CallOf(y.core, 2).attempt <= |y.core.shared.attempts|
    && !DeliveredAndLatest(y.core.shared, CallOf(y.core, 2).attempt)
  }

  /** Every client can reach a state in which `wait_for_first_sample` answers true
      although the run it was asked in delivered nothing. */
  lemma AnswerMayBeStale(cfg: Config)
    ensures exists moves, y :: Reaches(cfg, moves, y) && Stale(y)
  {
    var ys := ReachableSet(cfg);
    var y := Deliver(cfg, ys);
    assert Stale(y);
    var moves :| Reaches(cfg, moves, y);
  }
}
