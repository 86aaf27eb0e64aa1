/**
 What holds in every run of a client: any number of threads calling `start`,
 `stop`, `bias`, `health` and `wait_for_first_sample` in any interleaving, with any
 records, datagrams, discoveries, send failures and clock readings.
 */
module ClientTheorems {
  import Sequence
  import opened ClientData
  import opened StreamHistory
  import opened ClientLifecycle
  import opened ClientControl
  import opened ClientRuns
  import opened ClientAttempts
  import Wire = ClientWire
  import opened ClientWorld
  import opened ClientSystem
  import opened ClientMoves
  import Facade = ClientFacade

  /** The state is reached in some run of a client with a valid configuration. */
  ghost predicate InSomeRun(cfg: Config, moves: seq<Move>, y: System) {
    ValidConfig(cfg) && Reaches(cfg, moves, y)
  }

  /** At most one worker is alive, and `generation_` moves only when none is. */
  lemma AtMostOneWorker(cfg: Config, moves: seq<Move>, y: System, v: Tid, w: Tid)
    requires InSomeRun(cfg, moves, y) && IsAlive(y.core, v) && IsAlive(y.core, w)
    ensures v == w
    ensures forall t, a :: Can(y.core, t, a) ==> Do(cfg, y.core, t, a).shared.generation == y.core.shared.generation
  {
    EveryReachableState(cfg, moves, y);
    SingleWorker(y.core, v, w);
    forall t, a | Can(y.core, t, a) ensures Do(cfg, y.core, t, a).shared.generation == y.core.shared.generation {
      GenerationMovesAlone(cfg, y.core, t, a, v);
    }
  }

  /** `stop` returns to a thread other than the worker only when no worker is
      alive. */
  lemma StopWaitsForTheWorker(cfg: Config, moves: seq<Move>, y: System, t: Tid, a: StopAction, w: Tid)
    requires InSomeRun(cfg, moves, y) && StopCan(y.core, t, a) && !a.CallsStop?
    requires CallOf(StopDo(y.core, t, a), t).Idle? && !IsAlive(y.core, t)
    ensures !IsAlive(StopDo(y.core, t, a), w)
  {
    EveryReachableState(cfg, moves, y);
    if a.StopReturnsToWorker? {
      EarlyReturnIsTheWorker(y.core, t);
    } else if a.StopFindsNone? || a.StopFinishes? {
      StopLeavesNoWorker(y.core, t, a, w);
    } else {
      StopGoesOn(y.core, t, a);
    }
  }

  lemma StopGoesOn(s: Core, t: Tid, a: StopAction)
    requires ControlInv(s) && StopCan(s, t, a)
    requires !a.CallsStop? && !a.StopReturnsToWorker? && !a.StopFindsNone? && !a.StopFinishes?
    ensures !CallOf(StopDo(s, t, a), t).Idle?
  {
  }

  // ---------------------------------------------------------------------
  // Progress
  // ---------------------------------------------------------------------

  /** The thread can go on, with some choice of the environment that fits the data,
      without anyone beginning a new call. */
  ghost predicate GoesOn(cfg: Config, y: System, t: Tid) {
    exists a, c :: Enabled(cfg, y, t, a, c) && !BeginsCall(a)
  }

  /** A step of the worker that fits the data: a record is judged as it must be. */
  function FittingWork(cfg: Config, w: World, at: Point): (a: WorkAction)
    ensures WorkerAt(at, a)
  {
    var configuration := w.d.health.configuration;
    if at.AtRecord? && configuration.Some? && ValidCalibration(configuration.value.calibration)
    then HandlesRecord(Observe(cfg, w.d, at.r, at.at).1.value, MakeSample(at.r, configuration.value, at.at))
    else WorkFrom(at)
  }

  lemma FittingWorkFits(cfg: Config, w: World, at: Point, c: Choice)
    ensures WorkFits(cfg, w, at, FittingWork(cfg, w, at), c)
  {
  }

  lemma WorkGoesOn(cfg: Config, y: System, t: Tid, x: WorkAction, c: Choice)
    requires WorkerCan(y.core, t, x)
    ensures Enabled(cfg, y, t, Work(FittingWork(cfg, y.world, WorkerOf(y.core, t).at)), c)
  {
    var at := WorkerOf(y.core, t).at;
    FittingWorkFits(cfg, y.world, at, c);
    WorkerMoves(cfg, y.core.shared, y.core.stopping, at, x);
    WorkerMoves(cfg, y.core.shared, y.core.stopping, at, FittingWork(cfg, y.world, at));
  }

  lemma ProceedsGoesOn(cfg: Config, y: System, t: Tid, c: Choice)
    requires Proceeds(y.core, t)
    ensures GoesOn(cfg, y, t)
  {
    var a :| Can(y.core, t, a) && !BeginsCall(a);
    if a.Work? {
      WorkGoesOn(cfg, y, t, a.work, c);
    } else {
      assert Enabled(cfg, y, t, a, c);
    }
  }

  /** Some thread in the middle of something can go on if and only if some thread in
      the middle of something is not a `start` that sleeps without having been
      notified since.  Such a sleeper missed the worker's last notification: between
      its test of `worker_exited_` and its falling asleep the worker exited and
      notified, which it does without `lifecycle_mutex_`. */
  lemma ProgressExactlyWhen(cfg: Config, moves: seq<Move>, y: System, c: Choice)
    requires InSomeRun(cfg, moves, y)
    ensures (exists u :: Busy(y.core, u) && GoesOn(cfg, y, u))
            <==> (exists t :: Busy(y.core, t) && !Unnotified(y.core, t))
  {
    EveryReachableState(cfg, moves, y);
    if t :| Busy(y.core, t) && !Unnotified(y.core, t) {
      SomebodySteps(y.core, t);
      var u :| Busy(y.core, u) && Proceeds(y.core, u);
      ProceedsGoesOn(cfg, y, u, c);
    }
    if u :| Busy(y.core, u) && GoesOn(cfg, y, u) && Unnotified(y.core, u) {
      var a, c' :| Enabled(cfg, y, u, a, c') && !BeginsCall(a);
      UnnotifiedCannot(y.core, u, a);
    }
  }

  /** Threads are in the middle of calls and none of them can go on. */
  ghost predicate Stuck(cfg: Config, y: System) {
    (exists t :: Busy(y.core, t)) && forall u :: Busy(y.core, u) ==> !GoesOn(cfg, y, u)
  }

  /** A stuck client: every thread in the middle of something is a `start` asleep
      and not notified; no mutex is held, nobody joins, the worker is gone; and a
      `stop` by any thread would notify them all. */
  lemma StuckMeans(cfg: Config, moves: seq<Move>, y: System, t: Tid, c: Choice)
    requires InSomeRun(cfg, moves, y) && Stuck(cfg, y) && Busy(y.core, t)
    ensures Unnotified(y.core, t)
    ensures y.core.lock.None? && y.core.joiner.None? && !HasWorker(y.core) && y.core.shared.exited
    ensures forall x, z :: StopCan(y.core, z, StopMarks) ==> !Unnotified(StopDo(y.core, z, StopMarks), x)
  {
    EveryReachableState(cfg, moves, y);
    ProgressExactlyWhen(cfg, moves, y, c);
    var s := y.core;
    assert s.lock.Some? ==> Busy(s, s.lock.value.tid) && !Unnotified(s, s.lock.value.tid);
    assert s.joiner.Some? ==> Busy(s, s.joiner.value.tid) && !Unnotified(s, s.joiner.value.tid);
    assert HasWorker(s) ==> Busy(s, Owner(s).value) && !Unnotified(s, Owner(s).value);
    forall x, z | StopCan(s, z, StopMarks) ensures !Unnotified(StopDo(s, z, StopMarks), x) {
      StopNotifies(s, z, x);
    }
  }

  // ---------------------------------------------------------------------
  // Stopping before restarting
  // ---------------------------------------------------------------------

  /** From `p` the moves lead to `y`, and none of them creates a worker. */
  ghost predicate WithoutSpawn(cfg: Config, p: System, moves: seq<Move>, y: System) {
    if moves == [] then y == p
    else
      var m := moves[|moves| - 1];
      exists q :: WithoutSpawn(cfg, p, moves[..|moves| - 1], q) && Leads(cfg, q, m, y) && !SpawnsWorker(m.a)
  }

  predicate SpawnsWorker(a: Action) {
    a.Start? && a.start.StartSpawns?
  }

  lemma NoWorkerStays(cfg: Config, y: System, t: Tid, a: Action, c: Choice)
    requires SystemInv(cfg, y) && Can(y.core, t, a) && !HasWorker(y.core) && !SpawnsWorker(a)
    ensures !HasWorker(Step(cfg, y, t, a, c).core)
  {
    Facade.EveryStepIsAMove(cfg, y, t, a, c);
  }

  lemma {:induction false} NoWorkerWithoutSpawn(cfg: Config, p: System, moves: seq<Move>, y: System)
    requires ValidConfig(cfg) && SystemInv(cfg, p) && !HasWorker(p.core) && WithoutSpawn(cfg, p, moves, y)
    ensures SystemInv(cfg, y) && !HasWorker(y.core)
  {
    if moves != [] {
      var m := moves[|moves| - 1];
      var q :| WithoutSpawn(cfg, p, moves[..|moves| - 1], q) && Leads(cfg, q, m, y) && !SpawnsWorker(m.a);
      NoWorkerWithoutSpawn(cfg, p, moves[..|moves| - 1], q);
      SystemKept(cfg, q, m.t, m.a, m.c);
      NoWorkerStays(cfg, q, m.t, m.a, m.c);
    }
  }

  lemma OnlyWorkersPutToSleep(cfg: Config, s: Core, t: Tid, a: StartAction)
    requires ControlInv(s) && StartCan(s, t, a) && !HasWorker(s)
    ensures IsDozing(StartDo(cfg, s, t, a)) ==> IsDozing(s)
  {
    if a.StartDozes? {
      DozesBesideAWorker(s, t);
    }
  }

  /** Once no worker is alive, as after any `stop` that returned
      (`StopWaitsForTheWorker`), no `start` goes to sleep until another has created
      a worker: a caller who stops a faulted client before restarting it cannot miss
      a notification. */
  lemma StopFirstAndNeverSleep(
    cfg: Config, before: seq<Move>, p: System, moves: seq<Move>, y: System, t: Tid, a: StartAction)
    requires InSomeRun(cfg, before, p) && !HasWorker(p.core) && WithoutSpawn(cfg, p, moves, y) && StartCan(y.core, t, a)
    ensures IsDozing(StartDo(cfg, y.core, t, a)) ==> IsDozing(y.core)
  {
    EveryReachableState(cfg, before, p);
    NoWorkerWithoutSpawn(cfg, p, moves, y);
    OnlyWorkersPutToSleep(cfg, y.core, t, a);
  }

  // ---------------------------------------------------------------------
  // Answers, commands, recovery
  // ---------------------------------------------------------------------

  /** A true answer of `wait_for_first_sample` is about the run it was asked in,
      which has delivered and is the newest that stands, if and only if that run's
      `start` was not undone meanwhile; and always if no `start` was halfway when
      it was asked. */
  lemma AnswerIsRightExactlyWhen(cfg: Config, moves: seq<Move>, y: System, t: Tid)
    requires InSomeRun(cfg, moves, y) && CallOf(y.core, t).Waiting? && WaitAnswer(y.core, t)
    ensures
      var d, c := y.core.shared, CallOf(y.core, t);
      && 0 < c.attempt <= |d.attempts|
      && (DeliveredAndLatest(d, c.attempt) <==> !Undoing(d.attempts[c.attempt - 1]))
      && (c.settled ==> DeliveredAndLatest(d, c.attempt))
  {
    EveryReachableState(cfg, moves, y);
    TrueAnswer(y.core, t);
  }

  /** The answer of `wait_for_first_sample` is true whenever the run it was asked in has
      delivered and is the newest that stands. */
  lemma RightAnswerIsGiven(cfg: Config, moves: seq<Move>, y: System, t: Tid)
    requires InSomeRun(cfg, moves, y) && CallOf(y.core, t).Waiting?
    ensures
      var d, c := y.core.shared, CallOf(y.core, t);
      && 0 < c.attempt <= |d.attempts|
      && (DeliveredAndLatest(d, c.attempt) <==> WaitAnswer(y.core, t) && !Undoing(d.attempts[c.attempt - 1]))
  {
    EveryReachableState(cfg, moves, y);
    var d, c := y.core.shared, CallOf(y.core, t);
    assert CaptureOk(d, c);
    if DeliveredAndLatest(d, c.attempt) {
      RightAnswer(y.core, t);
    }
    if WaitAnswer(y.core, t) {
      TrueAnswer(y.core, t);
    }
  }

  /** The wire is a sequence of sessions: each StartRealtime, then records and
      biases, a record before the first bias, then one StopStreaming; only the last
      may still be open, and exactly while a session is started. */
  lemma WireIsSessions(cfg: Config, moves: seq<Move>, y: System)
    requires InSomeRun(cfg, moves, y)
    ensures exists gs ::
              && Wire.WellFormed(gs) && Wire.Print(gs) == y.core.shared.wire
              && (Wire.Open(gs) <==> y.core.shared.sessionStarted)
  {
    EveryReachableState(cfg, moves, y);
    var gs :| Wire.Explains(gs, y.core.shared, Wire.Standing(y.core));
    assert Wire.WellFormed(gs) && Wire.Print(gs) == y.core.shared.wire;
  }

  /** After the command section of a stop() nothing is sent until a later start()
      has created its worker. */
  lemma SilentAfterStop(cfg: Config, moves: seq<Move>, y: System, i: nat, j: nat)
    requires InSomeRun(cfg, moves, y) && i < j < |y.core.shared.wire| && y.core.shared.wire[i].StopRequested?
    requires forall k :: i < k < j ==> !y.core.shared.wire[k].RunOpened?
    ensures !y.core.shared.wire[j].Sent?
  {
    EveryReachableState(cfg, moves, y);
    var gs :| Wire.Explains(gs, y.core.shared, Wire.Standing(y.core));
    Wire.PrintIsSilent(gs);
    Wire.SilentMeans(y.core.shared.wire, i, j);
  }

  /** Reconnect: every wait is the initial delay doubled per fruitless session, up
      to the maximum, and only an exception latches a fault.  FailStop: at most one
      session per run, no reconnects, and the fault is that of the outcome. */
  lemma RecoveryInEveryRun(cfg: Config, moves: seq<Move>, y: System, w: Tid)
    requires InSomeRun(cfg, moves, y)
    ensures IsAlive(y.core, w) && WorkerOf(y.core, w).at.AtBackoff? ==>
              && cfg.policy.Reconnect?
              && WorkerOf(y.core, w).run.backoff == WaitAfter(cfg, WorkerOf(y.core, w).run.sessions)
    ensures cfg.policy.FailStop? ==>
              y.core.shared.reconnects == 0 && (IsAlive(y.core, w) ==> WorkerOf(y.core, w).run.begun <= 1)
    ensures Faulty(y.core.shared) ==>
              match y.core.shared.cause
              case NoCause => false
              case FromOutcome(r) => cfg.policy.FailStop? && y.core.shared.fault == FaultFor(r)
              case FromException => y.core.shared.fault == SocketFault
  {
    EveryReachableState(cfg, moves, y);
    RecoveryPolicyHolds(cfg, y.core, w);
  }

  /** A fault survives every step of every thread but the opening of a run. */
  lemma FaultsSurvive(cfg: Config, moves: seq<Move>, y: System, t: Tid, a: Action)
    requires InSomeRun(cfg, moves, y) && Can(y.core, t, a) && Faulty(y.core.shared) && a != Start(StartOpens)
    ensures Do(cfg, y.core, t, a).shared.fault == y.core.shared.fault
  {
    EveryReachableState(cfg, moves, y);
    FaultSticks(cfg, y.core, t, a);
  }

  /** `handle_record` always finds a configuration. */
  lemma ConfigurationIsThere(cfg: Config, moves: seq<Move>, y: System, t: Tid)
    requires InSomeRun(cfg, moves, y) && IsAlive(y.core, t) && WorkerOf(y.core, t).at.AtRecord?
    ensures y.world.d.health.configuration.Some?
  {
    EveryReachableState(cfg, moves, y);
    ConfigurationIsKnown(cfg, y.core, t);
    assert CoreView(y.core.shared) == DataView(y.world);
  }

  /** Whatever was pruned when and by whom, a `health()` that reads the clock at `now`
      reports how many records and deliveries of the run are at most one second
      old then. */
  lemma RatesInEveryRun(cfg: Config, moves: seq<Move>, y: System, now: real)
    requires InSomeRun(cfg, moves, y) && ClockReads(y.world, now)
    ensures
      var snapshot := Report(Perform(cfg, y.world, Two(Tick(now), ReadHealth)).d);
      && snapshot.receiveRate == RecentCount(y.world.h.received, now)
      && snapshot.deliveryRate == RecentCount(y.world.h.delivered, now)
  {
    EveryReachableState(cfg, moves, y);
    StreamKept(cfg, y.world, Tick(now));
    HealthRates(cfg, Next(cfg, y.world, Tick(now)));
  }

  /** The deliveries from the i-th to the j-th took their time. */
  predicate AtRate(cfg: Config, ts: seq<real>, i: nat, j: nat)
    requires i <= j < |ts|
  {
    (j - i) as real <= (ts[j] - ts[i]) * cfg.rateLimit
  }

  lemma DeliveriesArePaced(cfg: Config, s: Core, w: World, kept: Kept, f: World, i: nat, j: nat)
    requires RollbackInv(cfg, s, w, kept, f) && PaceInv(cfg, w) && cfg.rateLimit > 0.0 && i <= j < |w.h.delivered|
    ensures AtRate(cfg, w.h.delivered, i, j)
  {
    RateBound(cfg, w.h.delivered, if IsOpening(s) then f.d.lastDeliveryAt else w.d.lastDeliveryAt, i, j);
  }

  /** The completed deliveries of a run keep the limiter's distance, in every state:
      any stretch of T seconds holds at most T * limit + 1 of them. */
  lemma PaceInEveryRun(cfg: Config, moves: seq<Move>, y: System, i: nat, j: nat)
    requires InSomeRun(cfg, moves, y) && cfg.rateLimit > 0.0 && i <= j < |y.world.h.delivered|
    ensures AtRate(cfg, y.world.h.delivered, i, j)
  {
    EveryReachableState(cfg, moves, y);
    DeliveriesArePaced(cfg, y.core, y.world, y.kept, y.first, i, j);
  }

  /** Two samples handed out under one revision were scaled with one calibration, over
      the client's life. */
  lemma RevisionInEveryRun(cfg: Config, moves: seq<Move>, y: System, i: nat, j: nat)
    requires InSomeRun(cfg, moves, y) && i < |y.world.h.handed| && j < |y.world.h.handed|
    requires y.world.h.handed[i].sample.revision == y.world.h.handed[j].sample.revision
    ensures y.world.h.handed[i].calibration == y.world.h.handed[j].calibration
    ensures HasUnits(y.world.h.handed[i].sample, y.world.h.handed[i].calibration)
    ensures HasUnits(y.world.h.handed[j].sample, y.world.h.handed[i].calibration)
  {
    EveryReachableState(cfg, moves, y);
    RevisionIsFaithful(y.world, i, j);
  }

  /** In every state the lost count is the number of packets never taken, whenever the
      true sequence numbers are readable. */
  lemma LostInEveryRun(cfg: Config, moves: seq<Move>, y: System, truth: seq<Sequence.RdtEvent>)
    requires InSomeRun(cfg, moves, y)
    requires Unwraps(truth, y.world.h.rdtTrace) && Sequence.AllReadable(Sequence.Empty, truth)
    ensures y.world.d.health.records.lost == Sequence.NeverSeen(truth)
  {
    EveryReachableState(cfg, moves, y);
    LostIsExact(y.world, truth);
  }

  // ---------------------------------------------------------------------
  // A start that fails
  // ---------------------------------------------------------------------

  predicate Starting(y: System, t: Tid) {
    IsOpening(y.core) && y.core.lock.value.tid == t
  }

  /** From `p`, where thread `t` is admitted to `start`, the moves lead to `y`
      while that start is under way. */
  ghost predicate DuringStart(cfg: Config, p: System, t: Tid, moves: seq<Move>, y: System) {
    Starting(y, t) &&
    if moves == [] then StartCan(p.core, t, StartClaims) && y == StartStep(cfg, p, t, StartClaims)
    else
      var m := moves[|moves| - 1];
      exists q :: DuringStart(cfg, p, t, moves[..|moves| - 1], q) && Leads(cfg, q, m, y)
  }

  lemma ClaimTakesSnapshot(cfg: Config, p: System, t: Tid)
    requires SystemInv(cfg, p) && StartCan(p.core, t, StartClaims)
    ensures
      var y := StartStep(cfg, p, t, StartClaims);
      && y.first == p.world && Starting(y, t) && y.core.lock.value.section.saved == Save(p.core)
      && y.core.active == p.core.active
  {
  }

  /** Whatever any thread does meanwhile, the start under way remembers the client
      as it was. */
  lemma {:induction false} SnapshotOverRun(cfg: Config, p: System, t: Tid, moves: seq<Move>, y: System)
    requires ValidConfig(cfg) && SystemInv(cfg, p) && DuringStart(cfg, p, t, moves, y)
    ensures SystemInv(cfg, y) && y.first == p.world && y.core.lock.value.section.saved == Save(p.core)
    ensures p.core.handle.None? && y.core.active == p.core.active
  {
    if moves == [] {
      ClaimTakesSnapshot(cfg, p, t);
      CoreKept(cfg, p.core, t, Start(StartClaims));
      StartKeepsSystem(cfg, p, t, StartClaims);
    } else {
      var m := moves[|moves| - 1];
      var q :| DuringStart(cfg, p, t, moves[..|moves| - 1], q) && Leads(cfg, q, m, y);
      SnapshotOverRun(cfg, p, t, moves[..|moves| - 1], q);
      SystemKept(cfg, q, m.t, m.a, m.c);
      SnapshotStands(cfg, q, m.t, m.a, m.c);
    }
  }

  /** The client is as it was: flags, worker handle and id, callback, latch, health, latest sample,
      counters, generations, trackers, the limiter's memory; only the clock has
      moved and expired entries of the rate windows may be gone. */
  ghost predicate AsBefore(p: System, y: System) {
    && y.core.stopping == p.core.stopping && y.core.shared.exited == p.core.shared.exited
    && y.core.callback == p.core.callback && y.core.handle == p.core.handle && y.core.active == p.core.active
    && y.world.d == p.world.d.(receiveTimes := y.world.d.receiveTimes, deliveryTimes := y.world.d.deliveryTimes)
    && y.world.h == p.world.h.(clock := y.world.h.clock)
    && TimesOk(y.world.d, p.world.h.received, p.world.h.delivered, y.world.h.clock)
  }

  /** In every run, a `start` whose worker cannot be created leaves the client as it
      found it, whatever other threads do between its admission and its end. */
  lemma FailedStartIsANoOp(cfg: Config, before: seq<Move>, p: System, t: Tid, moves: seq<Move>, y: System)
    requires InSomeRun(cfg, before, p) && DuringStart(cfg, p, t, moves, y) && UndoCan(y.core, t, UndoesPublish)
    ensures AsBefore(p, UndoStep(cfg, y, t, UndoesPublish))
  {
    EveryReachableState(cfg, before, p);
    SnapshotOverRun(cfg, p, t, moves, y);
    FailedStartLeavesNoTrace(cfg, y, t);
  }
}
