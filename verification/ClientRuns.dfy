/**
 What a run looks like from inside: which shared fields go with which point of
 the worker, how faults arise, and how long the worker backs off.
 */
module ClientRuns {
  import opened ClientData
  import opened ClientLifecycle
  import opened ClientControl

  // ---------------------------------------------------------------------
  // Backoff
  // ---------------------------------------------------------------------

  function Power2(m: nat): real {
    if m == 0 then 1.0 else 2.0 * Power2(m - 1)
  }

  /** Sessions since the last one with a valid record, or since the first. */
  function Misses(sessions: seq<bool>): nat {
    if |sessions| <= 1 || sessions[|sessions| - 1] then 0 else 1 + Misses(sessions[..|sessions| - 1])
  }

  function Min(a: real, b: real): real {
    if a < b then a else b
  }

  /** The wait after the given sessions: the initial delay, doubled for every
      session without a valid record, up to the maximum. */
  function WaitAfter(cfg: Config, sessions: seq<bool>): real {
    Min(cfg.initialDelay * Power2(Misses(sessions)), cfg.maxDelay)
  }

  predicate BackoffOk(cfg: Config, run: RunVars, at: Point) {
    if at.AtBackoff? then run.sessions != [] && run.backoff == WaitAfter(cfg, run.sessions)
    else run.backoff == if run.sessions == [] then cfg.initialDelay
                        else Twice(WaitAfter(cfg, run.sessions), cfg.maxDelay)
  }

  lemma Doubling(cfg: Config, sessions: seq<bool>, valid: bool)
    requires ValidConfig(cfg)
    ensures sessions == [] ==> WaitAfter(cfg, [valid]) == cfg.initialDelay
    ensures valid ==> WaitAfter(cfg, sessions + [valid]) == cfg.initialDelay
    ensures sessions != [] && !valid ==>
              WaitAfter(cfg, sessions + [valid]) == Twice(WaitAfter(cfg, sessions), cfg.maxDelay)
  {
    assert Power2(0) == 1.0;
    var longer := sessions + [valid];
    assert longer[..|sessions|] == sessions;
    if sessions != [] && !valid {
      var m := Misses(sessions);
      assert Misses(longer) == m + 1;
      assert Power2(m + 1) == 2.0 * Power2(m);
      assert cfg.initialDelay * Power2(m + 1) == 2.0 * (cfg.initialDelay * Power2(m));
    }
  }

  // ---------------------------------------------------------------------
  // The worker and the shared fields
  // ---------------------------------------------------------------------

  /** The run is over but for closing and reporting. */
  predicate Ending(at: Point) {
    at.AtFinish? || at.AtExit? || at.AtLast?
  }

  /** A sample is in its callback, or its callback has just ended. */
  predicate Handing(at: Point) {
    at.AtCallback? || at.AtReturned? || at.AtThrew?
  }

  /** The session's configuration has been applied. */
  predicate Configuring(at: Point) {
    || at.AtCheckBeforeConnect? || at.AtConnect? || at.AtTracking? || at.AtReceive? || at.AtWaiting?
    || at.AtTimeout? || at.AtRecord? || Handing(at)
  }

  /** StartRealtime may have been sent in this session and not yet withdrawn. */
  predicate MayStream(at: Point) {
    || at.AtTracking? || at.AtReceive? || at.AtWaiting? || at.AtTimeout? || at.AtRecord? || Handing(at)
    || at.AtFailure? || at.AtSessionEnd? || at.AtCaught? || at.AtFinish?
  }

  predicate BeforeStream(at: Point) {
    at.AtCheckBeforeConfigure? || at.AtConfigure? || at.AtCheckBeforeConnect? || at.AtConnect?
  }

  predicate ReportsStop(at: Point) {
    (at.AtSessionEnd? || at.AtClosed?) && at.result.SessionStopped?
  }

  predicate StreamOk(d: Shared, at: Point) {
    && (d.pending <==> Handing(at))
    && (Configuring(at) ==> d.configured)
    && (d.sessionStarted ==> MayStream(at))
    && (BeforeStream(at) ==> d.state.Connecting?)
  }

  predicate EndOk(d: Shared, stopping: bool, at: Point) {
    && (Faulty(d) ==> Ending(at))
    && (ReportsStop(at) ==> stopping)
    && (Handing(at) ==> at.outcome != Some(SessionStopped))
    && (at.AtFailure? ==> !at.result.SessionStopped?)
    && (Ending(at) && !Faulty(d) ==> stopping)
  }

  /** Under FailStop a run has one session and never backs off. */
  predicate OneSession(run: RunVars, at: Point) {
    run.sessions == [] && !at.AtBackoff? && run.begun <= 1 && (at.AtLoop? ==> run.begun == 0)
  }

  /** Past its first test the worker is in a session, or on its way out. */
  predicate BegunOk(run: RunVars, at: Point) {
    run.begun == 0 ==> at.AtLoop? || Ending(at)
  }

  predicate WorkerOk(cfg: Config, d: Shared, stopping: bool, run: RunVars, at: Point) {
    && StreamOk(d, at)
    && BegunOk(run, at)
    && EndOk(d, stopping, at)
    && BackoffOk(cfg, run, at)
    && (cfg.policy.FailStop? ==> OneSession(run, at))
  }

  /** A latched fault is the one its cause calls for; under Reconnect no session
      outcome latches one. */
  predicate FaultOk(cfg: Config, fault: FaultCode, cause: Cause) {
    match cause
    case NoCause => false
    case FromOutcome(r) => cfg.policy.FailStop? && !r.SessionStopped? && fault == FaultFor(r)
    case FromException => fault == SocketFault
  }

  predicate LatchOk(cfg: Config, d: Shared) {
    && (Faulty(d) ==> FaultOk(cfg, d.fault, d.cause) && d.state.Faulted?)
    && (cfg.policy.FailStop? ==> d.reconnects == 0)
  }

  predicate SavedOk(cfg: Config, saved: Saved) {
    saved.fault != NoFault ==> FaultOk(cfg, saved.fault, saved.cause) && saved.state.Faulted?
  }

  /** With no worker alive nothing is in flight, and a run that ended did so for a
      fault or a stop. */
  predicate QuietOk(s: Core) {
    && !s.shared.pending && !s.shared.sessionStarted
    && (Owner(s).Some? && !Faulty(s.shared) ==> s.stopping)
  }

  predicate HasWorker(s: Core) {
    Owner(s).Some? && IsAlive(s, Owner(s).value)
  }

  /** `start` has passed its data section. */
  predicate Opened(s: Core) {
    IsOpening(s) && s.lock.value.section.phase != ToForget && s.lock.value.section.phase != ToOpen
  }

  predicate RunInv(cfg: Config, s: Core) {
    && LatchOk(cfg, s.shared)
    && (IsOpening(s) ==> SavedOk(cfg, s.lock.value.section.saved))
    && (Opened(s) ==> !Faulty(s.shared))
    && if HasWorker(s)
       then var w := WorkerOf(s, Owner(s).value); WorkerOk(cfg, s.shared, s.stopping, w.run, w.at)
       else QuietOk(s)
  }

  // ---------------------------------------------------------------------
  // Steps of the worker
  // ---------------------------------------------------------------------

  /** Steps that set a session up. */
  predicate SetsUp(a: WorkAction) {
    || a.LoopCheck? || a.SetConnecting? || a.CheckStop? || a.Configured? || a.DiscoveryFails? || a.Throws?
    || a.ConnectFails? || a.StartStream? || a.ResetTrackers?
  }

  lemma SetUpKeepsStream(cfg: Config, d: Shared, stopping: bool, at: Point, a: WorkAction)
    requires WorkerAt(at, a) && StreamOk(d, at) && EndOk(d, stopping, at) && SetsUp(a)
    ensures StreamOk(NextShared(cfg, d, stopping, at, a), NextPoint(cfg, d, stopping, at, a))
  {
  }

  lemma WorkKeepsStream(cfg: Config, d: Shared, stopping: bool, at: Point, a: WorkAction)
    requires WorkerAt(at, a) && StreamOk(d, at) && EndOk(d, stopping, at) && !a.Ends?
    ensures StreamOk(NextShared(cfg, d, stopping, at, a), NextPoint(cfg, d, stopping, at, a))
  {
    if SetsUp(a) {
      SetUpKeepsStream(cfg, d, stopping, at, a);
    }
  }

  lemma SetUpKeepsEnd(cfg: Config, d: Shared, stopping: bool, at: Point, a: WorkAction)
    requires WorkerAt(at, a) && StreamOk(d, at) && EndOk(d, stopping, at) && SetsUp(a)
    ensures EndOk(NextShared(cfg, d, stopping, at, a), stopping, NextPoint(cfg, d, stopping, at, a))
  {
  }

  lemma WorkKeepsEnd(cfg: Config, d: Shared, stopping: bool, at: Point, a: WorkAction)
    requires WorkerAt(at, a) && StreamOk(d, at) && EndOk(d, stopping, at) && !a.Ends?
    ensures EndOk(NextShared(cfg, d, stopping, at, a), stopping, NextPoint(cfg, d, stopping, at, a))
  {
    if SetsUp(a) {
      SetUpKeepsEnd(cfg, d, stopping, at, a);
    }
  }

  lemma WorkKeepsLatch(cfg: Config, d: Shared, stopping: bool, at: Point, a: WorkAction)
    requires WorkerAt(at, a) && EndOk(d, stopping, at) && LatchOk(cfg, d)
    ensures LatchOk(cfg, NextShared(cfg, d, stopping, at, a))
  {
  }

  lemma WorkKeepsBackoff(cfg: Config, d: Shared, stopping: bool, run: RunVars, at: Point, a: WorkAction)
    requires ValidConfig(cfg) && WorkerAt(at, a) && BackoffOk(cfg, run, at) && !a.Ends?
    ensures BackoffOk(cfg, NextRun(cfg, d, stopping, run, at, a), NextPoint(cfg, d, stopping, at, a))
  {
    if a.DecidesNext? {
      Doubling(cfg, run.sessions, at.valid);
      assert run.sessions == [] ==> run.sessions + [at.valid] == [at.valid];
    }
  }

  lemma WorkKeepsBegun(cfg: Config, d: Shared, stopping: bool, run: RunVars, at: Point, a: WorkAction)
    requires WorkerAt(at, a) && BegunOk(run, at) && !a.Ends?
    ensures BegunOk(NextRun(cfg, d, stopping, run, at, a), NextPoint(cfg, d, stopping, at, a))
  {
  }

  lemma WorkKeepsOneSession(cfg: Config, d: Shared, stopping: bool, run: RunVars, at: Point, a: WorkAction)
    requires cfg.policy.FailStop? && WorkerAt(at, a) && OneSession(run, at) && !a.Ends?
    ensures OneSession(NextRun(cfg, d, stopping, run, at, a), NextPoint(cfg, d, stopping, at, a))
  {
  }

  lemma WorkKeepsRun(cfg: Config, s: Core, t: Tid, a: WorkAction)
    requires ValidConfig(cfg) && ControlInv(s) && RunInv(cfg, s) && WorkerCan(s, t, a)
    ensures RunInv(cfg, WorkerDo(cfg, s, t, a))
  {
    var s', w := WorkerDo(cfg, s, t, a), WorkerOf(s, t);
    assert Owner(s) == Some(t) == Owner(s');
    WorkKeepsLatch(cfg, s.shared, s.stopping, w.at, a);
    if !a.Ends? {
      WorkKeepsStream(cfg, s.shared, s.stopping, w.at, a);
      WorkKeepsEnd(cfg, s.shared, s.stopping, w.at, a);
      WorkKeepsBackoff(cfg, s.shared, s.stopping, w.run, w.at, a);
      WorkKeepsBegun(cfg, s.shared, s.stopping, w.run, w.at, a);
      if cfg.policy.FailStop? {
        WorkKeepsOneSession(cfg, s.shared, s.stopping, w.run, w.at, a);
      }
    }
  }

  // ---------------------------------------------------------------------
  // Steps of callers
  // ---------------------------------------------------------------------

  lemma SpawnKeepsRun(cfg: Config, s: Core, t: Tid, w: Tid)
    requires ValidConfig(cfg) && ControlInv(s) && RunInv(cfg, s) && StartCan(s, t, StartSpawns(w))
    ensures RunInv(cfg, StartDo(cfg, s, t, StartSpawns(w)))
  {
    assert !HasWorker(s);
  }

  /** Steps of `start` that write shared fields before there is a worker. */
  lemma OpenKeepsRun(cfg: Config, s: Core, t: Tid, a: StartAction)
    requires ControlInv(s) && RunInv(cfg, s) && StartCan(s, t, a) && (a.StartOpens? || a.StartSetsFlags?)
    ensures RunInv(cfg, StartDo(cfg, s, t, a))
  {
    assert !HasWorker(s) && Owner(s).None?;
  }

  lemma OtherStartKeepsRun(cfg: Config, s: Core, t: Tid, a: StartAction)
    requires ControlInv(s) && RunInv(cfg, s) && StartCan(s, t, a)
    requires !a.StartSpawns? && !a.StartOpens? && !a.StartSetsFlags?
    ensures RunInv(cfg, StartDo(cfg, s, t, a))
  {
    var s' := StartDo(cfg, s, t, a);
    assert s'.shared == s.shared && s'.stopping == s.stopping;
    assert Owner(s).Some? ==> WorkerOf(s', Owner(s).value) == WorkerOf(s, Owner(s).value);
  }

  lemma StartKeepsRun(cfg: Config, s: Core, t: Tid, a: StartAction)
    requires ValidConfig(cfg) && ControlInv(s) && RunInv(cfg, s) && StartCan(s, t, a)
    ensures RunInv(cfg, StartDo(cfg, s, t, a))
  {
    if a.StartSpawns? {
      SpawnKeepsRun(cfg, s, t, a.w);
    } else if a.StartOpens? || a.StartSetsFlags? {
      OpenKeepsRun(cfg, s, t, a);
    } else {
      OtherStartKeepsRun(cfg, s, t, a);
    }
  }

  lemma UndoKeepsRun(cfg: Config, s: Core, t: Tid, a: UndoAction)
    requires ControlInv(s) && RunInv(cfg, s) && UndoCan(s, t, a)
    ensures RunInv(cfg, UndoDo(s, t, a))
  {
  }

  lemma StopKeepsRun(cfg: Config, s: Core, t: Tid, a: StopAction)
    requires ControlInv(s) && RunInv(cfg, s) && StopCan(s, t, a)
    ensures RunInv(cfg, StopDo(s, t, a))
  {
    var s' := StopDo(s, t, a);
    assert Owner(s).Some? ==> WorkerOf(s', Owner(s).value) == WorkerOf(s, Owner(s).value);
  }

  lemma QueryTouchesWire(s: Core, t: Tid, a: QueryAction)
    requires QueryCan(s, t, a)
    ensures
      var s' := QueryDo(s, t, a);
      && s'.shared == s.shared.(wire := s'.shared.wire) && s'.stopping == s.stopping && s'.lock == s.lock
      && s'.handle == s.handle && s'.joiner == s.joiner && s'.workers == s.workers
  {
  }

  lemma QueryKeepsRun(cfg: Config, s: Core, t: Tid, a: QueryAction)
    requires RunInv(cfg, s) && QueryCan(s, t, a)
    ensures RunInv(cfg, QueryDo(s, t, a))
  {
    QueryTouchesWire(s, t, a);
  }

  lemma RunStarts(cfg: Config)
    ensures RunInv(cfg, CORE_INITIAL)
  {
  }

  lemma RunKept(cfg: Config, s: Core, t: Tid, a: Action)
    requires ValidConfig(cfg) && ControlInv(s) && RunInv(cfg, s) && Can(s, t, a)
    ensures RunInv(cfg, Do(cfg, s, t, a))
  {
    match a
    case Work(x) => WorkKeepsRun(cfg, s, t, x);
    case Start(x) => StartKeepsRun(cfg, s, t, x);
    case Undo(x) => UndoKeepsRun(cfg, s, t, x);
    case Stop(x) => StopKeepsRun(cfg, s, t, x);
    case Query(x) => QueryKeepsRun(cfg, s, t, x);
  }

  // ---------------------------------------------------------------------
  // What follows
  // ---------------------------------------------------------------------

  /** `handle_record` never finds the configuration missing. */
  lemma ConfigurationIsKnown(cfg: Config, s: Core, t: Tid)
    requires ControlInv(s) && RunInv(cfg, s) && IsAlive(s, t) && WorkerOf(s, t).at.AtRecord?
    ensures s.shared.configured
  {
  }

  /** The recovery policy.  Reconnect: every wait is the initial delay doubled per
      fruitless session, and only an exception latches a fault.  FailStop: one
      session per run, no reconnects, and the fault is that of the outcome. */
  lemma RecoveryPolicyHolds(cfg: Config, s: Core, t: Tid)
    requires ControlInv(s) && RunInv(cfg, s)
    ensures IsAlive(s, t) && WorkerOf(s, t).at.AtBackoff? ==>
              && cfg.policy.Reconnect?
              && WorkerOf(s, t).run.backoff == WaitAfter(cfg, WorkerOf(s, t).run.sessions)
    ensures IsAlive(s, t) && cfg.policy.FailStop? ==> WorkerOf(s, t).run.begun <= 1
    ensures cfg.policy.FailStop? ==> s.shared.reconnects == 0
    ensures Faulty(s.shared) && cfg.policy.Reconnect? ==> s.shared.cause == FromException
    ensures Faulty(s.shared) && s.shared.cause.FromOutcome? ==>
              cfg.policy.FailStop? && s.shared.fault == FaultFor(s.shared.cause.result)
  {
  }

  lemma StartKeepsFault(cfg: Config, s: Core, t: Tid, a: StartAction)
    requires StartCan(s, t, a) && !a.StartOpens?
    ensures StartDo(cfg, s, t, a).shared.fault == s.shared.fault
  {
  }

  lemma StopKeepsFault(s: Core, t: Tid, a: StopAction)
    requires StopCan(s, t, a)
    ensures StopDo(s, t, a).shared.fault == s.shared.fault
  {
  }

  /** A latched fault outlives every step but the opening of a run. */
  lemma FaultSticks(cfg: Config, s: Core, t: Tid, a: Action)
    requires ControlInv(s) && RunInv(cfg, s) && Can(s, t, a) && Faulty(s.shared)
    ensures Do(cfg, s, t, a).shared.fault == s.shared.fault || (a.Start? && a.start.StartOpens?)
  {
    match a
    case Work(x) => FaultStaysLatched(cfg, s.shared, s.stopping, WorkerOf(s, t).at, x);
    case Start(x) =>
      if !x.StartOpens? {
        StartKeepsFault(cfg, s, t, x);
      }
    case Stop(x) => StopKeepsFault(s, t, x);
    case Query(x) => QueryTouchesWire(s, t, x);
    case Undo(x) => assert false;
  }

  lemma FaultStaysLatched(cfg: Config, d: Shared, stopping: bool, at: Point, a: WorkAction)
    requires WorkerAt(at, a) && Faulty(d)
    ensures NextShared(cfg, d, stopping, at, a).fault == d.fault
  {
  }

  /** A worker that has ended left a latched fault or was asked to stop. */
  lemma EndedForAReason(cfg: Config, s: Core, w: Tid)
    requires ControlInv(s) && RunInv(cfg, s) && s.handle == Some(w) && !IsAlive(s, w)
    ensures Faulty(s.shared) || s.stopping
  {
  }
}
