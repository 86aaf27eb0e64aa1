/**
 Who owns the worker: the control skeleton that every step of every thread keeps,
 and what follows from it about workers, joins and waiting.
 */
module ClientControl {
  import opened ClientData
  import opened ClientLifecycle

  /** The thread `worker_` stands for, or the one being joined. */
  function Owner(s: Core): Option<Tid> {
    if s.handle.Some? then s.handle else if s.joiner.Some? then Some(s.joiner.value.target) else None
  }

  predicate IsOpening(s: Core) {
    s.lock.Some? && s.lock.value.section.Opening?
  }

  /** `exited` is false on purpose although no worker lives: between the flags and
      the spawn, or the undoing, of a run being opened. */
  predicate FlagsAhead(s: Core) {
    IsOpening(s) && (s.lock.value.section.phase == ToSpawn || s.lock.value.section.phase == ToUndoFlags)
  }

  predicate IsDozing(s: Core) {
    s.lock.Some? && s.lock.value.section.Dozing?
  }

  predicate LocksInv(s: Core) {
    && (s.lock.Some? ==> CallOf(s, s.lock.value.tid).Inside?)
    && (s.joiner.Some? ==> CallOf(s, s.joiner.value.tid).Inside?)
    && (s.lock.Some? && s.joiner.Some? ==> s.lock.value.tid != s.joiner.value.tid)
    && (IsOpening(s) ==> s.handle.None? && s.joiner.None? && s.lock.value.section.saved.exited)
    && (s.handle.Some? ==> s.handle.value in s.workers && s.joiner.None?)
    && (IsDozing(s) ==> s.lock.value.tid !in s.workers)
  }

  /** A thread never joins itself. */
  predicate JoinsInv(s: Core) {
    s.joiner.Some? ==>
      && s.joiner.value.target in s.workers && s.joiner.value.tid != s.joiner.value.target
      && (s.joiner.value.joined ==> !IsAlive(s, s.joiner.value.target))
  }

  ghost predicate WorkersInv(s: Core) {
    && (forall w {:trigger WorkerOf(s, w)} :: WorkerOf(s, w).Alive? ==>
          Owner(s) == Some(w) && s.active == Some(w) && (s.shared.exited <==> WorkerOf(s, w).at.AtLast?))
    && (forall t {:trigger CallOf(s, t)} :: t in s.workers && !CallOf(s, t).Idle? ==>
          && WorkerOf(s, t).Alive? && WorkerOf(s, t).at.AtCallback?
          && !CallOf(s, t).StopAsleep? && !CallOf(s, t).StartAsleep?)
    && (s.shared.exited <==> !FlagsAhead(s) && (Owner(s).Some? && IsAlive(s, Owner(s).value) ==>
          WorkerOf(s, Owner(s).value).at.AtLast?))
  }

  ghost predicate InsideInv(s: Core) {
    forall t {:trigger CallOf(s, t)} ::
      && (CallOf(s, t).Inside? ==>
            (s.lock.Some? && s.lock.value.tid == t) || (s.joiner.Some? && s.joiner.value.tid == t))
      && (CallOf(s, t).StartAsleep? ==> CallOf(s, t).since <= s.notices)
  }

  ghost predicate ControlInv(s: Core) {
    LocksInv(s) && JoinsInv(s) && WorkersInv(s) && InsideInv(s)
  }

  // ---------------------------------------------------------------------
  // Every step keeps it
  // ---------------------------------------------------------------------

  /** How the worker approaches its end. */
  lemma WorkerMarks(cfg: Config, d: Shared, stopping: bool, at: Point, a: WorkAction)
    requires WorkerAt(at, a)
    ensures NextShared(cfg, d, stopping, at, a).exited == (d.exited || at.AtExit?)
  {
  }

  lemma WorkerMoves(cfg: Config, d: Shared, stopping: bool, at: Point, a: WorkAction)
    requires WorkerAt(at, a)
    ensures a.Ends? <==> at.AtLast?
    ensures !a.Ends? ==> (NextPoint(cfg, d, stopping, at, a).AtLast? <==> at.AtExit?)
    ensures at.AtCallback? <==> a.CallbackReturns? || a.CallbackThrows?
  {
  }

  lemma WorkKeepsControl(cfg: Config, s: Core, t: Tid, a: WorkAction)
    requires ControlInv(s) && WorkerCan(s, t, a)
    ensures ControlInv(WorkerDo(cfg, s, t, a))
  {
    var s' := WorkerDo(cfg, s, t, a);
    WorkerMarks(cfg, s.shared, s.stopping, WorkerOf(s, t).at, a);
    WorkerMoves(cfg, s.shared, s.stopping, WorkerOf(s, t).at, a);
    assert forall x :: CallOf(s', x) == CallOf(s, x);
    assert forall x :: x != t ==> WorkerOf(s', x) == WorkerOf(s, x);
    assert Owner(s') == Owner(s) == Some(t);
  }

  /** Steps of a `start` that waits for a faulted worker. */
  predicate Sleeps(a: StartAction) {
    a.StartDozes? || a.StartSleeps? || a.StartWakes?
  }

  lemma SleepKeepsControl(cfg: Config, s: Core, t: Tid, a: StartAction)
    requires ControlInv(s) && StartCan(s, t, a) && Sleeps(a)
    ensures ControlInv(StartDo(cfg, s, t, a))
  {
    var s' := StartDo(cfg, s, t, a);
    assert forall x :: x != t ==> CallOf(s', x) == CallOf(s, x);
    assert forall x :: WorkerOf(s', x) == WorkerOf(s, x);
    assert t in s.workers ==> WorkerOf(s, t).Alive?;
  }

  /** Steps of a `start` that joins a worker that has exited. */
  predicate Reaps(a: StartAction) {
    a.StartReaps? || a.StartJoins? || a.StartReleases?
  }

  lemma ReapKeepsControl(cfg: Config, s: Core, t: Tid, a: StartAction)
    requires ControlInv(s) && StartCan(s, t, a) && Reaps(a)
    ensures ControlInv(StartDo(cfg, s, t, a))
  {
    var s' := StartDo(cfg, s, t, a);
    assert forall x :: x != t ==> CallOf(s', x) == CallOf(s, x);
    assert forall x :: WorkerOf(s', x) == WorkerOf(s, x);
  }

  lemma OpenKeepsControl(cfg: Config, s: Core, t: Tid, a: StartAction)
    requires ControlInv(s) && StartCan(s, t, a) && !Sleeps(a) && !Reaps(a) && !a.StartSpawns?
    ensures ControlInv(StartDo(cfg, s, t, a))
  {
    var s' := StartDo(cfg, s, t, a);
    assert forall x :: x != t ==> CallOf(s', x) == CallOf(s, x);
    assert forall x :: WorkerOf(s', x) == WorkerOf(s, x);
  }

  lemma SpawnKeepsControl(cfg: Config, s: Core, t: Tid, w: Tid)
    requires ControlInv(s) && StartCan(s, t, StartSpawns(w))
    ensures ControlInv(StartDo(cfg, s, t, StartSpawns(w)))
  {
    var s' := StartDo(cfg, s, t, StartSpawns(w));
    assert forall x :: x != t ==> CallOf(s', x) == CallOf(s, x);
    assert forall x :: x != w ==> WorkerOf(s', x) == WorkerOf(s, x);
  }

  lemma StartKeepsControl(cfg: Config, s: Core, t: Tid, a: StartAction)
    requires ControlInv(s) && StartCan(s, t, a)
    ensures ControlInv(StartDo(cfg, s, t, a))
  {
    if Sleeps(a) {
      SleepKeepsControl(cfg, s, t, a);
    } else if Reaps(a) {
      ReapKeepsControl(cfg, s, t, a);
    } else if a.StartSpawns? {
      SpawnKeepsControl(cfg, s, t, a.w);
    } else {
      OpenKeepsControl(cfg, s, t, a);
    }
  }

  lemma UndoKeepsControl(s: Core, t: Tid, a: UndoAction)
    requires ControlInv(s) && UndoCan(s, t, a)
    ensures ControlInv(UndoDo(s, t, a))
  {
    var s' := UndoDo(s, t, a);
    assert forall x :: x != t ==> CallOf(s', x) == CallOf(s, x);
    assert forall x :: WorkerOf(s', x) == WorkerOf(s, x);
  }

  lemma StopKeepsControl(s: Core, t: Tid, a: StopAction)
    requires ControlInv(s) && StopCan(s, t, a)
    ensures ControlInv(StopDo(s, t, a))
  {
    var s' := StopDo(s, t, a);
    assert forall x :: x != t ==> CallOf(s', x) == CallOf(s, x);
    assert forall x :: WorkerOf(s', x) == WorkerOf(s, x);
  }

  lemma SharedKeepsControl(s: Core, d: Shared)
    requires ControlInv(s) && d.exited == s.shared.exited
    ensures ControlInv(s.(shared := d))
  {
    var s' := s.(shared := d);
    assert forall x :: CallOf(s', x) == CallOf(s, x);
    assert forall x :: WorkerOf(s', x) == WorkerOf(s, x);
  }

  lemma CallKeepsControl(s: Core, t: Tid, c: Call)
    requires ControlInv(s) && !CallOf(s, t).Inside?
    requires c.Idle? || MayCall(s, t) || !CallOf(s, t).Idle?
    requires !c.StopAsleep? && !c.StartAsleep? && !c.Inside?
    ensures ControlInv(Move(s, t, c))
  {
    var s' := Move(s, t, c);
    assert forall x :: x != t ==> CallOf(s', x) == CallOf(s, x);
    assert forall x :: WorkerOf(s', x) == WorkerOf(s, x);
  }

  lemma QueryKeepsControl(s: Core, t: Tid, a: QueryAction)
    requires ControlInv(s) && QueryCan(s, t, a)
    ensures ControlInv(QueryDo(s, t, a))
  {
    var s' := QueryDo(s, t, a);
    if a.Biases? || a.ReadsHealth? {
      SharedKeepsControl(s, s'.shared);
    } else {
      CallKeepsControl(s, t, CallOf(s', t));
    }
  }

  lemma ControlStarts()
    ensures ControlInv(CORE_INITIAL)
  {
  }

  lemma ControlKept(cfg: Config, s: Core, t: Tid, a: Action)
    requires ControlInv(s) && Can(s, t, a)
    ensures ControlInv(Do(cfg, s, t, a))
  {
    match a
    case Work(x) => WorkKeepsControl(cfg, s, t, x);
    case Start(x) => StartKeepsControl(cfg, s, t, x);
    case Undo(x) => UndoKeepsControl(s, t, x);
    case Stop(x) => StopKeepsControl(s, t, x);
    case Query(x) => QueryKeepsControl(s, t, x);
  }

  // ---------------------------------------------------------------------
  // What follows
  // ---------------------------------------------------------------------

  /** At most one worker thread is alive, however starts and stops interleave. */
  lemma SingleWorker(s: Core, v: Tid, w: Tid)
    requires ControlInv(s) && IsAlive(s, v) && IsAlive(s, w)
    ensures v == w
  {
  }

  /** `generation_` moves only in `start`, past its checks. */
  predicate GenerationMove(s: Core, s': Core) {
    s'.shared.generation != s.shared.generation ==> IsOpening(s) && s'.workers == s.workers
  }

  lemma StartMovesGeneration(cfg: Config, s: Core, t: Tid, a: StartAction)
    requires StartCan(s, t, a)
    ensures GenerationMove(s, StartDo(cfg, s, t, a))
  {
  }

  lemma StopMovesGeneration(s: Core, t: Tid, a: StopAction)
    requires StopCan(s, t, a)
    ensures GenerationMove(s, StopDo(s, t, a))
  {
  }

  lemma OnlyOpeningMovesGeneration(cfg: Config, s: Core, t: Tid, a: Action)
    requires Can(s, t, a)
    ensures GenerationMove(s, Do(cfg, s, t, a))
  {
    match a
    case Work(x) => WorkerKeepsGeneration(cfg, s.shared, s.stopping, WorkerOf(s, t).at, x);
    case Start(x) => StartMovesGeneration(cfg, s, t, x);
    case Stop(x) => StopMovesGeneration(s, t, x);
    case _ =>
  }

  /** `generation_` moves only while no worker is alive. */
  lemma GenerationMovesAlone(cfg: Config, s: Core, t: Tid, a: Action, w: Tid)
    requires ControlInv(s) && Can(s, t, a)
    ensures Do(cfg, s, t, a).shared.generation != s.shared.generation ==>
              !IsAlive(s, w) && !IsAlive(Do(cfg, s, t, a), w)
  {
    OnlyOpeningMovesGeneration(cfg, s, t, a);
    assert IsOpening(s) ==> Owner(s).None? && !WorkerOf(s, w).Alive?;
  }

  lemma WorkerKeepsGeneration(cfg: Config, d: Shared, stopping: bool, at: Point, a: WorkAction)
    requires WorkerAt(at, a)
    ensures NextShared(cfg, d, stopping, at, a).generation == d.generation
    ensures NextShared(cfg, d, stopping, at, a).current == d.current
  {
  }

  /** When `stop` returns to a thread that is not the worker, no worker is alive. */
  lemma StopLeavesNoWorker(s: Core, t: Tid, a: StopAction, w: Tid)
    requires ControlInv(s) && StopCan(s, t, a) && (a.StopFindsNone? || a.StopFinishes?)
    ensures CallOf(StopDo(s, t, a), t).Idle? && !IsAlive(StopDo(s, t, a), w)
  {
    assert WorkerOf(StopDo(s, t, a), w) == WorkerOf(s, w);
  }

  /** `stop` returns early exactly when its caller is the living worker, inside its
      callback. */
  lemma EarlyReturnIsTheWorker(s: Core, t: Tid)
    requires ControlInv(s) && StoppingAt(s, t, true)
    ensures IsActiveWorker(s, t) <==> IsAlive(s, t)
    ensures IsAlive(s, t) ==> WorkerOf(s, t).at.AtCallback?
  {
  }

  /** `start` refuses only a client that is running: its caller is the worker, or
      a worker lives and no fault is latched. */
  lemma StartRefusesOnlyRunning(s: Core, t: Tid)
    requires ControlInv(s) && StartCan(s, t, StartThrows)
    ensures Owner(s).Some? && IsAlive(s, Owner(s).value)
    ensures IsAlive(s, t) || !Faulty(s.shared)
  {
  }

  // ---------------------------------------------------------------------
  // Waiting
  // ---------------------------------------------------------------------

  predicate Busy(s: Core, t: Tid) {
    !CallOf(s, t).Idle? || IsAlive(s, t)
  }

  /** A `start` that sleeps on `lifecycle_cv_` and has not been notified since. */
  predicate Unnotified(s: Core, t: Tid) {
    CallOf(s, t).StartAsleep? && CallOf(s, t).since == s.notices
  }

  /** Thread `t` cannot go on before `u` does: for `lifecycle_mutex_`, for
      `joining_`, in a join, or asleep until the worker or a joiner notifies. */
  predicate WaitsFor(s: Core, t: Tid, u: Tid) {
    var c := CallOf(s, t);
    var wantsLock := || c.StartEnter? || c.StopEnter? || c.StopAsleep? || JoinerIs(s, t, true)
                     || (c.StartAsleep? && !Unnotified(s, t));
    || (wantsLock && s.lock.Some? && s.lock.value.tid == u)
    || (c.StopAsleep? && s.joiner.Some? && s.joiner.value.tid == u)
    || (c.StartEnter? && !IsActiveWorker(s, t) && s.joiner.Some? && s.joiner.value.tid == u)
    || (Unnotified(s, t) && (IsAlive(s, u) || (s.joiner.Some? && s.joiner.value.tid == u)))
    || (JoinerIs(s, t, false) && s.joiner.value.target == u && IsAlive(s, u))
  }

  function Rank(s: Core, t: Tid): nat {
    if s.lock.Some? && s.lock.value.tid == t then 0
    else if s.joiner.Some? && s.joiner.value.tid == t then 2
    else if IsAlive(s, t) then 1
    else 3
  }

  /** The wait-for graph has no cycle: every edge descends. */
  lemma WaitingDescends(s: Core, t: Tid, u: Tid)
    requires ControlInv(s) && WaitsFor(s, t, u)
    ensures Rank(s, u) < Rank(s, t)
    ensures Busy(s, u) && !Unnotified(s, u)
  {
  }

  /** A step the worker can take from any point. */
  function WorkFrom(at: Point): (a: WorkAction)
    ensures WorkerAt(at, a)
  {
    match at
    case AtLoop => LoopCheck
    case AtConnecting => SetConnecting
    case AtCheckBeforeConfigure => CheckStop
    case AtConfigure => DiscoveryFails
    case AtCheckBeforeConnect => CheckStop
    case AtConnect => ConnectFails
    case AtTracking => ResetTrackers
    case AtReceive(_) => CheckStop
    case AtWaiting(_) => TimesOut
    case AtTimeout(_) => CountsTimeout
    case AtRecord(r, at) =>
      HandlesRecord(Verdict(false, None),
                    Sample(r, Vector(0.0, 0.0, 0.0), Vector(0.0, 0.0, 0.0), Newton, NewtonMeter, 0, at))
    case AtCallback(_, _) => CallbackReturns
    case AtReturned(_, _) => CompletesDelivery
    case AtThrew(_) => RecordsError
    case AtFailure(_, _) => ResolveFailure
    case AtSessionEnd(_, _) => ClosesSession(true)
    case AtClosed(_, _) => DecidesNext
    case AtBackoff => Wakes
    case AtCaught => Catches
    case AtFinish => ClosesLast(true)
    case AtExit => MarksExited
    case AtLast => Ends
  }

  /** The step of whoever holds `lifecycle_mutex_`: it never waits. */
  function HolderAction(s: Core): (a: Action)
    requires s.lock.Some?
    ensures Can(s, s.lock.value.tid, a) && !BeginsCall(a)
  {
    var t := s.lock.value.tid;
    match s.lock.value.section
    case Stopping(false) => Stop(StopCommands(true))
    case Stopping(true) =>
      Stop(if IsActiveWorker(s, t) then StopReturnsToWorker
           else if s.joiner.Some? then StopAwaitsJoiner
           else if s.handle.None? then StopFindsNone else StopTakesHandle)
    case Dozing(_) => Start(StartSleeps)
    case Opening(phase, _, _) =>
      match phase
      case ToForget => Start(StartForgets)
      case ToOpen => Start(StartOpens)
      case ToSetFlags => Start(StartSetsFlags)
      case ToSpawn => Start(StartFails)
      case ToUndoFlags => Undo(UndoesFlags)
      case ToUndoPace => Undo(UndoesPace)
      case ToUndoData => Undo(UndoesData)
      case ToUndoLatch => Undo(UndoesLatch)
      case ToUndoPublish => Undo(UndoesPublish)
  }

  /** The action begins a call instead of continuing one. */
  predicate BeginsCall(a: Action) {
    || (a.Start? && a.start.CallsStart?) || (a.Stop? && a.stop.CallsStop?)
    || (a.Query? && (a.query.CallsWait? || a.query.Biases? || a.query.ReadsHealth?))
  }

  ghost predicate Proceeds(s: Core, t: Tid) {
    exists a :: Can(s, t, a) && !BeginsCall(a)
  }

  /** A thread in the middle of something can step, waits for another, or sleeps
      without having been notified. */
  lemma StepsOrWaits(s: Core, t: Tid)
    requires ControlInv(s) && Busy(s, t) && !Unnotified(s, t)
    ensures Proceeds(s, t) || (exists u :: WaitsFor(s, t, u))
  {
    var c := CallOf(s, t);
    if s.lock.Some? && s.lock.value.tid == t {
      assert Can(s, t, HolderAction(s));
    } else if s.joiner.Some? && s.joiner.value.tid == t {
      JoinerSteps(s);
    } else if c.Idle? {
      assert Can(s, t, Work(WorkFrom(WorkerOf(s, t).at)));
    } else if c.WaitEnter? {
      assert Can(s, t, Query(WaitCaptures));
    } else if c.Waiting? {
      assert Can(s, t, Query(WaitReturns));
    } else if s.lock.Some? {
      assert WaitsFor(s, t, s.lock.value.tid);
    } else {
      EntrySteps(s, t);
    }
  }

  lemma JoinerSteps(s: Core)
    requires ControlInv(s) && s.joiner.Some?
    ensures
      var t := s.joiner.value.tid;
      Proceeds(s, t) || (exists u :: WaitsFor(s, t, u))
  {
    var j := s.joiner.value;
    if !j.joined && IsAlive(s, j.target) {
      assert WaitsFor(s, j.tid, j.target);
    } else if j.joined && s.lock.Some? {
      assert WaitsFor(s, j.tid, s.lock.value.tid);
    } else if j.restart.Some? {
      assert Can(s, j.tid, Start(if j.joined then StartReleases else StartJoins));
    } else {
      assert Can(s, j.tid, Stop(if j.joined then StopFinishes else StopJoins));
    }
  }

  lemma EntrySteps(s: Core, t: Tid)
    requires ControlInv(s) && s.lock.None? && !Unnotified(s, t)
    requires CallOf(s, t).StartEnter? || CallOf(s, t).StartAsleep?
             || CallOf(s, t).StopEnter? || CallOf(s, t).StopAsleep?
    ensures Proceeds(s, t) || (exists u :: WaitsFor(s, t, u))
  {
    var c := CallOf(s, t);
    if c.StopEnter? {
      assert Can(s, t, Stop(StopMarks));
    } else if c.StartAsleep? {
      assert Can(s, t, Start(StartWakes));
    } else if c.StopAsleep? {
      if s.joiner.Some? {
        assert WaitsFor(s, t, s.joiner.value.tid);
      } else {
        assert Can(s, t, Stop(StopWakes));
      }
    } else {
      StartSteps(s, t);
    }
  }

  lemma StartSteps(s: Core, t: Tid)
    requires ControlInv(s) && s.lock.None? && CallOf(s, t).StartEnter?
    ensures Proceeds(s, t) || (exists u :: WaitsFor(s, t, u))
  {
    if IsActiveWorker(s, t) {
      assert Can(s, t, Start(StartThrows));
    } else if s.joiner.Some? {
      assert WaitsFor(s, t, s.joiner.value.tid);
    } else if s.handle.None? {
      assert Can(s, t, Start(StartClaims));
    } else if s.shared.exited {
      assert Can(s, t, Start(StartReaps));
    } else if Faulty(s.shared) {
      assert Can(s, t, Start(StartDozes));
    } else {
      assert Can(s, t, Start(StartThrows));
    }
  }

  /** While any thread is in the middle of something, sleepers that were not
      notified apart, some such thread can go on without anyone beginning a new
      call. */
  lemma {:induction false} SomebodySteps(s: Core, t: Tid)
    requires ControlInv(s) && Busy(s, t) && !Unnotified(s, t)
    ensures exists u :: Busy(s, u) && Proceeds(s, u)
    decreases Rank(s, t)
  {
    StepsOrWaits(s, t);
    if !Proceeds(s, t) {
      var u :| WaitsFor(s, t, u);
      WaitingDescends(s, t, u);
      SomebodySteps(s, u);
    }
  }

  /** A sleeper that was not notified has no step of its own. */
  lemma UnnotifiedIsStuck(s: Core, t: Tid)
    requires ControlInv(s) && Unnotified(s, t)
    ensures !Proceeds(s, t)
  {
    forall a | Can(s, t, a) && !BeginsCall(a) ensures false {
      UnnotifiedCannot(s, t, a);
    }
  }

  lemma UnnotifiedCannot(s: Core, t: Tid, a: Action)
    requires ControlInv(s) && Unnotified(s, t) && !BeginsCall(a)
    ensures !Can(s, t, a)
  {
  }

  /** Any `stop` notifies every sleeper. */
  lemma StopNotifies(s: Core, t: Tid, x: Tid)
    requires ControlInv(s) && StopCan(s, t, StopMarks)
    ensures !Unnotified(StopDo(s, t, StopMarks), x)
  {
    assert x != t ==> CallOf(StopDo(s, t, StopMarks), x) == CallOf(s, x);
  }

  /** Only beside a living faulted worker does `start` go to sleep at all. */
  lemma DozesBesideAWorker(s: Core, t: Tid)
    requires ControlInv(s) && StartCan(s, t, StartDozes)
    ensures Owner(s).Some? && IsAlive(s, Owner(s).value) && Faulty(s.shared)
  {
  }
}
