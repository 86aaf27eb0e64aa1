/**
 `Client::Impl` as a machine of threads.

 Any number of threads call `start`, `stop`, `bias`, `health` and
 `wait_for_first_sample`; a started run is one more thread, the worker, which may
 make the same calls from inside the sample callback.  One step is one critical
 section, one read of an atomic flag, or one join.  `lifecycle_mutex_` is held
 across several steps of `start` and `stop` and is part of the state; the other
 mutexes are held for one step only.

 Of the guarded data this machine keeps what decides control: the fault latch,
 the reported state, whether a configuration is known, whether a sample is in its
 callback, and the generations.  What a record, a datagram or a discovery turns
 out to be is carried by the action; `ClientWorld.dfy` ties those choices to the
 full data.
 */
module ClientLifecycle {
  import opened ClientData

  // ---------------------------------------------------------------------
  // The worker
  // ---------------------------------------------------------------------

  /** Where `run` and `receive_session` stand. */
  datatype Point =
    | AtLoop
    | AtConnecting
    | AtCheckBeforeConfigure
    | AtConfigure
    | AtCheckBeforeConnect
    | AtConnect
    | AtTracking
    | AtReceive(valid: bool)
    | AtWaiting(valid: bool)
    | AtTimeout(valid: bool)
    | AtRecord(r: RawRecord, at: real)
    | AtCallback(sample: Sample, outcome: Option<SessionResult>)
    | AtReturned(sample: Sample, outcome: Option<SessionResult>)
    | AtThrew(outcome: Option<SessionResult>)
    | AtFailure(result: SessionResult, valid: bool)
    | AtSessionEnd(result: SessionResult, valid: bool)
    | AtClosed(result: SessionResult, valid: bool)
    | AtBackoff
    | AtCaught
    | AtFinish
    | AtExit
    | AtLast

  /** `backoff`, whether each finished session got a valid record, and the number
      of sessions begun. */
  datatype RunVars = RunVars(backoff: real, sessions: seq<bool>, begun: nat)

  datatype Worker = Alive(run: RunVars, at: Point) | Terminated

  // ---------------------------------------------------------------------
  // Calls
  // ---------------------------------------------------------------------

  /** Everything `start` may have to put back: the machine's fields as they were
      when the attempt was admitted. */
  datatype Saved = Saved(
    stopping: bool, exited: bool, callback: nat, fault: FaultCode, cause: Cause, state: ClientState,
    generation: nat, delivered: nat, current: nat)

  /** The steps of `start` under `lifecycle_mutex_`, named by what comes next. */
  datatype OpenPhase =
    ToForget | ToOpen | ToSetFlags | ToSpawn | ToUndoFlags | ToUndoPace | ToUndoData | ToUndoLatch | ToUndoPublish

  /** What the holder of `lifecycle_mutex_` is doing. */
  datatype Section =
    | Opening(phase: OpenPhase, saved: Saved, callback: nat)   // in start
    | Stopping(commanded: bool)                                // in stop
    | Dozing(callback: nat)                                    // in start, about to sleep

  datatype Holder = Holder(tid: Tid, section: Section)

  /** `joining_`, with the thread that set it and took the worker handle; it joins
      for `stop`, or for a `start` that goes on with its callback. */
  datatype Joiner = Joiner(tid: Tid, target: Tid, joined: bool, restart: Option<nat>)

  datatype Call =
    | Idle
    | StartEnter(callback: nat)
    | StartAsleep(callback: nat, since: nat)  // start, waiting for a faulted worker to exit
    | StopEnter
    | StopAsleep                 // stop, waiting for joining_ to clear
    | Inside                     // the holder or the joiner
    | WaitEnter
    | Waiting(generation: nat, attempt: nat, settled: bool)

  // ---------------------------------------------------------------------
  // The whole state
  // ---------------------------------------------------------------------

  datatype Command = StartRealtime | SetSoftwareBias | StopStreaming

  /** The wire as seen by the sensor, with marks for the events that bear on it. */
  datatype WireEvent =
    | Sent(command: Command, ok: bool)
    | SawRecord
    | StopRequested
    | RunOpened

  /** A `start` that reached its data section. */
  datatype Fate = Undecided | Committed | Undone
  datatype Attempt = Attempt(generation: nat, fate: Fate, delivered: bool)

  datatype Cause = NoCause | FromOutcome(result: SessionResult) | FromException

  /** The fields the worker writes, besides its own program counter. */
  datatype Shared = Shared(
    exited: bool,
    sessionStarted: bool,
    fault: FaultCode,
    state: ClientState,
    configured: bool,
    pending: bool,
    reconnects: nat,
    generation: nat,
    delivered: nat,            // delivered_generation_
    current: nat,              // the attempt generation_ stands for, counted from 1
    wire: seq<WireEvent>,
    attempts: seq<Attempt>,
    cause: Cause)

  datatype Core = Core(
    lock: Option<Holder>,      // lifecycle_mutex_
    joiner: Option<Joiner>,    // joining_
    handle: Option<Tid>,       // worker_
    active: Option<Tid>,       // active_worker_id_
    stopping: bool,
    callback: nat,
    shared: Shared,
    notices: nat,              // how often lifecycle_cv_ was notified
    workers: map<Tid, Worker>,
    calls: map<Tid, Call>)

  const SHARED_INITIAL := Shared(true, false, NoFault, Stopped, false, false, 0, 0, 0, 0, [], [], NoCause)
  const CORE_INITIAL := Core(None, None, None, None, false, 0, SHARED_INITIAL, 0, map[], map[])

  function CallOf(s: Core, t: Tid): Call {
    if t in s.calls then s.calls[t] else Idle
  }

  function WorkerOf(s: Core, t: Tid): Worker {
    if t in s.workers then s.workers[t] else Terminated
  }

  predicate IsAlive(s: Core, t: Tid) {
    WorkerOf(s, t).Alive?
  }

  predicate Faulty(d: Shared) {
    d.fault != NoFault
  }

  function Move(s: Core, t: Tid, c: Call): Core {
    s.(calls := s.calls[t := c])
  }

  // ---------------------------------------------------------------------
  // Steps of the worker
  // ---------------------------------------------------------------------

  datatype WorkAction =
    | LoopCheck
    | SetConnecting
    | CheckStop
    | Configured
    | DiscoveryFails
    | Throws
    | ConnectFails
    | StartStream(ok: bool)
    | ResolveFailure
    | ResetTrackers
    | TimesOut
    | CountsTimeout
    | ReceiveThrows
    | GetsMalformed(storm: bool)
    | GetsRecord(r: RawRecord, now: real)
    | HandlesRecord(verdict: Verdict, sample: Sample)
    | CallbackReturns
    | CallbackThrows
    | CompletesDelivery
    | RecordsError
    | ClosesSession(sent: bool)
    | DecidesNext
    | Wakes
    | Catches
    | ClosesLast(sent: bool)
    | MarksExited
    | Ends

  function AfterVerdict(outcome: Option<SessionResult>): Point {
    if outcome.None? then AtReceive(true) else AtSessionEnd(outcome.value, true)
  }

  function SendStop(d: Shared, ok: bool): Shared {
    if d.sessionStarted
    then d.(sessionStarted := false, wire := d.wire + [Sent(StopStreaming, ok)])
    else d
  }

  /** `FaultLatch::publish`: the first fault wins. */
  function Latch(d: Shared, code: FaultCode, cause: Cause): Shared {
    if Faulty(d) then d else d.(fault := code, state := Faulted, cause := cause)
  }

  function Twice(backoff: real, maximum: real): real {
    if backoff * 2.0 < maximum then backoff * 2.0 else maximum
  }

  /** The step is the one the program counter stands at. */
  predicate WorkerAt(at: Point, a: WorkAction) {
    match a
    case LoopCheck => at.AtLoop?
    case SetConnecting => at.AtConnecting?
    case CheckStop => at.AtCheckBeforeConfigure? || at.AtCheckBeforeConnect? || at.AtReceive?
    case Configured => at.AtConfigure?
    case DiscoveryFails => at.AtConfigure?
    case Throws => at.AtConfigure? || at.AtWaiting?
    case ConnectFails => at.AtConnect?
    case StartStream(_) => at.AtConnect?
    case ResolveFailure => at.AtFailure?
    case ResetTrackers => at.AtTracking?
    case TimesOut => at.AtWaiting?
    case CountsTimeout => at.AtTimeout?
    case ReceiveThrows => at.AtWaiting?
    case GetsMalformed(_) => at.AtWaiting?
    case GetsRecord(_, _) => at.AtWaiting?
    case HandlesRecord(verdict, _) => at.AtRecord? && verdict.outcome != Some(SessionStopped)
    case CallbackReturns => at.AtCallback?
    case CallbackThrows => at.AtCallback?
    case CompletesDelivery => at.AtReturned?
    case RecordsError => at.AtThrew?
    case ClosesSession(_) => at.AtSessionEnd?
    case DecidesNext => at.AtClosed?
    case Wakes => at.AtBackoff?
    case Catches => at.AtCaught?
    case ClosesLast(_) => at.AtFinish?
    case MarksExited => at.AtExit?
    case Ends => at.AtLast?
  }

  /** Where the worker goes. */
  function NextPoint(cfg: Config, d: Shared, stopping: bool, at: Point, a: WorkAction): Point
    requires WorkerAt(at, a)
  {
    match a
    case LoopCheck => if stopping || Faulty(d) then AtFinish else AtConnecting
    case SetConnecting => AtCheckBeforeConfigure
    case CheckStop =>
      var valid := at.AtReceive? && at.valid;
      if stopping then AtSessionEnd(SessionStopped, valid)
      else if at.AtCheckBeforeConfigure? then AtConfigure
      else if at.AtCheckBeforeConnect? then AtConnect else AtWaiting(valid)
    case Configured => AtCheckBeforeConnect
    case DiscoveryFails => AtFailure(SensorConfigurationFailure, false)
    case Throws => AtCaught
    case ConnectFails => AtFailure(SocketFailure, false)
    case StartStream(ok) =>
      if stopping then AtSessionEnd(SessionStopped, false)
      else if ok then AtTracking else AtFailure(SocketFailure, false)
    case ResolveFailure => AtSessionEnd(if stopping then SessionStopped else at.result, at.valid)
    case ResetTrackers => AtReceive(false)
    case TimesOut => AtTimeout(at.valid)
    case CountsTimeout => AtSessionEnd(if stopping then SessionStopped else SessionTimeout, at.valid)
    case ReceiveThrows => AtFailure(SocketFailure, at.valid)
    case GetsMalformed(storm) =>
      if stopping then AtSessionEnd(SessionStopped, at.valid)
      else if storm then AtSessionEnd(MalformedStorm, at.valid) else AtReceive(at.valid)
    case GetsRecord(r, now) => if stopping then AtSessionEnd(SessionStopped, at.valid) else AtRecord(r, now)
    case HandlesRecord(verdict, sample) =>
      if !d.configured then AtCaught
      else if verdict.deliver then AtCallback(sample, verdict.outcome) else AfterVerdict(verdict.outcome)
    case CallbackReturns => AtReturned(at.sample, at.outcome)
    case CallbackThrows => AtThrew(at.outcome)
    case CompletesDelivery => AfterVerdict(at.outcome)
    case RecordsError => AfterVerdict(AfterCallbackFailure(cfg, at.outcome))
    case ClosesSession(_) => AtClosed(at.result, at.valid)
    case DecidesNext =>
      if at.result.SessionStopped? || cfg.policy.FailStop? || stopping then AtFinish else AtBackoff
    case Wakes => AtLoop
    case Catches => AtFinish
    case ClosesLast(_) => AtExit
    case MarksExited => AtLast
    case Ends => AtLast
  }

  function NextRun(cfg: Config, d: Shared, stopping: bool, run: RunVars, at: Point, a: WorkAction): RunVars
    requires WorkerAt(at, a)
  {
    match a
    case LoopCheck => if stopping || Faulty(d) then run else run.(begun := run.begun + 1)
    case DecidesNext =>
      if NextPoint(cfg, d, stopping, at, a).AtFinish? then run
      else run.(backoff := if at.valid then cfg.initialDelay else run.backoff, sessions := run.sessions + [at.valid])
    case Wakes => run.(backoff := Twice(run.backoff, cfg.maxDelay))
    case _ => run
  }

  /** What the worker's step does to the shared fields. */
  function NextShared(cfg: Config, d: Shared, stopping: bool, at: Point, a: WorkAction): Shared
    requires WorkerAt(at, a)
  {
    match a
    case SetConnecting => d.(state := Connecting)
    case Configured => d.(configured := true)
    case StartStream(ok) =>
      if stopping then d else d.(wire := d.wire + [Sent(StartRealtime, ok)], sessionStarted := ok)
    case HandlesRecord(verdict, _) =>
      if !d.configured then d
      else d.(state := Streaming, pending := verdict.deliver, wire := d.wire + [SawRecord])
    case CompletesDelivery =>
      d.(pending := false, delivered := d.generation,
         attempts := if 0 < d.current <= |d.attempts|
                     then d.attempts[d.current - 1 := d.attempts[d.current - 1].(delivered := true)]
                     else d.attempts)
    case RecordsError => d.(pending := false)
    case ClosesSession(ok) => SendStop(d, ok)
    case DecidesNext =>
      if !at.result.SessionStopped? && cfg.policy.FailStop?
      then Latch(d, FaultFor(at.result), FromOutcome(at.result))
      else if at.result.SessionStopped? || stopping then d
      else d.(state := Backoff, reconnects := d.reconnects + 1)
    case Catches => if stopping then d else Latch(d, SocketFault, FromException)
    case ClosesLast(ok) => SendStop(d, ok)
    case MarksExited => d.(exited := true)
    case Ends => if Faulty(d) then d else d.(state := Stopped)
    case _ => d
  }

  predicate WorkerCan(s: Core, t: Tid, a: WorkAction) {
    && IsAlive(s, t) && WorkerAt(WorkerOf(s, t).at, a)
    && (a.CallbackReturns? || a.CallbackThrows? ==> CallOf(s, t).Idle?)
  }

  /** The worker's step ends with `lifecycle_cv_.notify_all`: after a delivery, after
      publishing a fault, and at its very end. */
  predicate Notifies(cfg: Config, stopping: bool, at: Point, a: WorkAction)
    requires WorkerAt(at, a)
  {
    match a
    case CompletesDelivery => true
    case DecidesNext => !at.result.SessionStopped? && cfg.policy.FailStop?
    case Catches => !stopping
    case Ends => true
    case _ => false
  }

  /** `lifecycle_cv_.notify_all`: it wakes whoever is asleep now, and nobody who goes
      to sleep later. */
  function Notify(s: Core): Core {
    s.(notices := s.notices + 1)
  }

  function WorkerDo(cfg: Config, s: Core, t: Tid, a: WorkAction): Core
    requires WorkerCan(s, t, a)
  {
    var w := WorkerOf(s, t);
    s.(shared := NextShared(cfg, s.shared, s.stopping, w.at, a),
       notices := s.notices + if Notifies(cfg, s.stopping, w.at, a) then 1 else 0,
       workers := s.workers[t := if a.Ends? then Terminated
                                 else Alive(NextRun(cfg, s.shared, s.stopping, w.run, w.at, a),
                                            NextPoint(cfg, s.shared, s.stopping, w.at, a))])
  }

  // ---------------------------------------------------------------------
  // Steps of callers
  // ---------------------------------------------------------------------

  /** The thread may begin a call: it is no worker, or a worker in its callback. */
  predicate MayCall(s: Core, t: Tid) {
    CallOf(s, t).Idle? && (t in s.workers ==> s.workers[t].Alive? && s.workers[t].at.AtCallback?)
  }

  /** The test at the head of `start` and in `stop`: the caller is the worker. */
  predicate IsActiveWorker(s: Core, t: Tid) {
    !s.shared.exited && s.active == Some(t)
  }

  // --- start ---

  datatype StartAction =
    | CallsStart(callback: nat)
    | StartThrows
    | StartDozes       // finds a faulted worker that has not exited
    | StartSleeps
    | StartWakes
    | StartReaps
    | StartJoins
    | StartReleases
    | StartClaims
    | StartForgets
    | StartOpens
    | StartSetsFlags
    | StartSpawns(w: Tid)
    | StartFails

  /** The thread holds `lifecycle_mutex_` and its next step in `start` is `phase`. */
  predicate OpeningAt(s: Core, t: Tid, phase: OpenPhase) {
    s.lock.Some? && s.lock.value.tid == t && s.lock.value.section.Opening? && s.lock.value.section.phase == phase
  }

  /** The thread is at the head of `start`, past the wait for `joining_`. */
  predicate StartAdmitted(s: Core, t: Tid) {
    CallOf(s, t).StartEnter? && s.lock.None? && !IsActiveWorker(s, t) && s.joiner.None?
  }

  predicate JoinerIs(s: Core, t: Tid, joined: bool) {
    s.joiner.Some? && s.joiner.value.tid == t && s.joiner.value.joined == joined
  }

  predicate StartCan(s: Core, t: Tid, a: StartAction) {
    match a
    case CallsStart(_) => MayCall(s, t)
    case StartThrows =>
      && CallOf(s, t).StartEnter? && s.lock.None?
      && (IsActiveWorker(s, t)
          || (s.joiner.None? && s.handle.Some? && !s.shared.exited && !Faulty(s.shared)))
    case StartDozes => StartAdmitted(s, t) && s.handle.Some? && !s.shared.exited && Faulty(s.shared)
    case StartSleeps => s.lock.Some? && s.lock.value.tid == t && s.lock.value.section.Dozing?
    case StartWakes => CallOf(s, t).StartAsleep? && CallOf(s, t).since < s.notices && s.lock.None?
    case StartReaps => StartAdmitted(s, t) && s.handle.Some? && s.shared.exited
    case StartJoins => JoinerIs(s, t, false) && s.joiner.value.restart.Some? && !IsAlive(s, s.joiner.value.target)
    case StartReleases => JoinerIs(s, t, true) && s.joiner.value.restart.Some? && s.lock.None?
    case StartClaims => StartAdmitted(s, t) && s.handle.None?
    case StartForgets => OpeningAt(s, t, ToForget)
    case StartOpens => OpeningAt(s, t, ToOpen)
    case StartSetsFlags => OpeningAt(s, t, ToSetFlags)
    case StartSpawns(w) => OpeningAt(s, t, ToSpawn) && w !in s.workers && w !in s.calls && w != t
    case StartFails => OpeningAt(s, t, ToSpawn)
  }

  function Save(s: Core): Saved {
    Saved(s.stopping, s.shared.exited, s.callback, s.shared.fault, s.shared.cause, s.shared.state,
          s.shared.generation, s.shared.delivered, s.shared.current)
  }

  function SetFate(attempts: seq<Attempt>, fate: Fate): seq<Attempt> {
    if attempts == [] then [] else attempts[|attempts| - 1 := attempts[|attempts| - 1].(fate := fate)]
  }

  /** The holder goes on to its next phase. */
  function Advance(s: Core, phase: OpenPhase): Core
    requires s.lock.Some? && s.lock.value.section.Opening?
  {
    s.(lock := Some(s.lock.value.(section := s.lock.value.section.(phase := phase))))
  }

  /** The test of the wait has failed under `lifecycle_mutex_`, which the thread
      still holds. */
  function Doze(s: Core, t: Tid, callback: nat): Core {
    Move(s.(lock := Some(Holder(t, Dozing(callback)))), t, Inside)
  }

  function StartDo(cfg: Config, s: Core, t: Tid, a: StartAction): Core
    requires StartCan(s, t, a)
  {
    var c, d := CallOf(s, t), s.shared;
    match a
    case CallsStart(callback) => Move(s, t, StartEnter(callback))
    case StartThrows => Move(s, t, Idle)
    case StartDozes => Doze(s, t, c.callback)
    case StartSleeps => Move(s.(lock := None), t, StartAsleep(s.lock.value.section.callback, s.notices))
    case StartWakes =>
      if d.exited || !Faulty(d) then Move(s, t, StartEnter(c.callback)) else Doze(s, t, c.callback)
    case StartReaps =>
      Move(s.(joiner := Some(Joiner(t, s.handle.value, false, Some(c.callback))), handle := None), t, Inside)
    case StartJoins => s.(joiner := Some(s.joiner.value.(joined := true)))
    case StartReleases =>
      Move(Notify(s.(active := None, joiner := None)), t, StartEnter(s.joiner.value.restart.value))
    case StartClaims => Move(s.(lock := Some(Holder(t, Opening(ToForget, Save(s), c.callback)))), t, Inside)
    case StartForgets => Advance(s, ToOpen)
    case StartOpens =>
      var d' := d.(fault := NoFault, state := Connecting, generation := d.generation + 1, delivered := 0,
                   attempts := d.attempts + [Attempt(d.generation + 1, Undecided, false)],
                   current := |d.attempts| + 1);
      Advance(s.(shared := d'), ToSetFlags)
    case StartSetsFlags =>
      Advance(s.(stopping := false, shared := d.(exited := false),
                 callback := s.lock.value.section.callback), ToSpawn)
    case StartSpawns(w) =>
      Move(s.(lock := None, handle := Some(w), active := Some(w),
              shared := d.(attempts := SetFate(d.attempts, Committed), cause := NoCause,
                           wire := d.wire + [RunOpened]),
              notices := s.notices + 1,
              workers := s.workers[w := Alive(RunVars(cfg.initialDelay, [], 0), AtLoop)]), t, Idle)
    case StartFails => Advance(s, ToUndoFlags)
  }

  // --- the rollback of a failed start ---

  datatype UndoAction = UndoesFlags | UndoesPace | UndoesData | UndoesLatch | UndoesPublish

  predicate UndoCan(s: Core, t: Tid, a: UndoAction) {
    match a
    case UndoesFlags => OpeningAt(s, t, ToUndoFlags)
    case UndoesPace => OpeningAt(s, t, ToUndoPace)
    case UndoesData => OpeningAt(s, t, ToUndoData)
    case UndoesLatch => OpeningAt(s, t, ToUndoLatch)
    case UndoesPublish => OpeningAt(s, t, ToUndoPublish)
  }

  function UndoDo(s: Core, t: Tid, a: UndoAction): Core
    requires UndoCan(s, t, a)
  {
    var saved, d := s.lock.value.section.saved, s.shared;
    match a
    case UndoesFlags =>
      Advance(s.(stopping := saved.stopping, shared := d.(exited := saved.exited), callback := saved.callback),
              ToUndoPace)
    case UndoesPace => Advance(s, ToUndoData)
    case UndoesData =>
      var d' := d.(state := saved.state, generation := saved.generation, delivered := saved.delivered,
                   attempts := SetFate(d.attempts, Undone), current := saved.current);
      Advance(s.(shared := d'), ToUndoLatch)
    case UndoesLatch => Advance(s.(shared := d.(fault := NoFault)), ToUndoPublish)
    case UndoesPublish =>
      var d' := if saved.fault == NoFault then d else Latch(d, saved.fault, saved.cause);
      Move(Notify(s.(lock := None, shared := d')), t, Idle)
  }

  // --- stop ---

  datatype StopAction =
    | CallsStop
    | StopMarks
    | StopCommands(sent: bool)
    | StopReturnsToWorker
    | StopAwaitsJoiner
    | StopWakes
    | StopFindsNone
    | StopTakesHandle
    | StopJoins
    | StopFinishes

  predicate StoppingAt(s: Core, t: Tid, commanded: bool) {
    s.lock.Some? && s.lock.value.tid == t && s.lock.value.section == Stopping(commanded)
  }

  predicate StopCan(s: Core, t: Tid, a: StopAction) {
    match a
    case CallsStop => MayCall(s, t)
    case StopMarks => CallOf(s, t).StopEnter? && s.lock.None?
    case StopCommands(_) => StoppingAt(s, t, false)
    case StopReturnsToWorker => StoppingAt(s, t, true) && IsActiveWorker(s, t)
    case StopAwaitsJoiner => StoppingAt(s, t, true) && !IsActiveWorker(s, t) && s.joiner.Some?
    case StopWakes => CallOf(s, t).StopAsleep? && s.lock.None? && s.joiner.None?
    case StopFindsNone => StoppingAt(s, t, true) && !IsActiveWorker(s, t) && s.joiner.None? && s.handle.None?
    case StopTakesHandle => StoppingAt(s, t, true) && !IsActiveWorker(s, t) && s.joiner.None? && s.handle.Some?
    case StopJoins => JoinerIs(s, t, false) && s.joiner.value.restart.None? && !IsAlive(s, s.joiner.value.target)
    case StopFinishes => JoinerIs(s, t, true) && s.joiner.value.restart.None? && s.lock.None?
  }

  function MarkStopped(d: Shared): Shared {
    if Faulty(d) then d else d.(state := Stopped)
  }

  function StopDo(s: Core, t: Tid, a: StopAction): Core
    requires StopCan(s, t, a)
  {
    var d := s.shared;
    match a
    case CallsStop => Move(s, t, StopEnter)
    case StopMarks =>
      Move(Notify(s.(lock := Some(Holder(t, Stopping(false))), stopping := true)), t, Inside)
    case StopCommands(ok) =>
      var d' := SendStop(d, ok);
      s.(shared := d'.(wire := d'.wire + [StopRequested]), lock := Some(Holder(t, Stopping(true))))
    case StopReturnsToWorker => Move(s.(lock := None), t, Idle)
    case StopAwaitsJoiner => Move(s.(lock := None), t, StopAsleep)
    case StopWakes => Move(s, t, StopEnter)
    case StopFindsNone => Move(s.(lock := None, shared := MarkStopped(d)), t, Idle)
    case StopTakesHandle =>
      s.(lock := None, joiner := Some(Joiner(t, s.handle.value, false, None)), handle := None)
    case StopJoins => s.(joiner := Some(s.joiner.value.(joined := true)))
    case StopFinishes => Move(Notify(s.(shared := MarkStopped(d), active := None, joiner := None)), t, Idle)
  }

  // --- wait_for_first_sample, bias, health ---

  /** Some `start` is past its data section and has not ended. */
  predicate MidStart(s: Core) {
    s.lock.Some? && s.lock.value.section.Opening? && !s.lock.value.section.phase.ToForget?
    && !s.lock.value.section.phase.ToOpen?
  }

  datatype QueryAction =
    | CallsWait
    | WaitCaptures
    | WaitReturns
    | Biases(biasOk: bool, startOk: bool)
    | ReadsHealth(now: real)

  predicate QueryCan(s: Core, t: Tid, a: QueryAction) {
    match a
    case CallsWait => MayCall(s, t)
    case WaitCaptures => CallOf(s, t).WaitEnter?
    case WaitReturns => CallOf(s, t).Waiting?
    case Biases(_, _) => MayCall(s, t)
    case ReadsHealth(_) => MayCall(s, t)
  }

  predicate MayBias(s: Core) {
    !s.stopping && s.shared.sessionStarted && !Faulty(s.shared) && s.shared.state.Streaming?
  }

  function QueryDo(s: Core, t: Tid, a: QueryAction): Core
    requires QueryCan(s, t, a)
  {
    var d := s.shared;
    match a
    case CallsWait => Move(s, t, WaitEnter)
    case WaitCaptures => Move(s, t, if d.generation == 0 then Idle else Waiting(d.generation, d.current, !MidStart(s)))
    case WaitReturns => Move(s, t, Idle)
    case Biases(biasOk, startOk) =>
      if !MayBias(s) then s
      else if !biasOk then s.(shared := d.(wire := d.wire + [Sent(SetSoftwareBias, false)]))
      else s.(shared := d.(wire := d.wire + [Sent(SetSoftwareBias, true), Sent(StartRealtime, startOk)]))
    case ReadsHealth(_) => s
  }

  /** What `wait_for_first_sample` returns when it stops waiting. */
  predicate WaitAnswer(s: Core, t: Tid)
    requires CallOf(s, t).Waiting?
  {
    s.shared.generation == CallOf(s, t).generation && s.shared.delivered == CallOf(s, t).generation
  }

  // ---------------------------------------------------------------------
  // The machine
  // ---------------------------------------------------------------------

  datatype Action =
    | Work(work: WorkAction)
    | Start(start: StartAction)
    | Undo(undo: UndoAction)
    | Stop(stop: StopAction)
    | Query(query: QueryAction)

  predicate Can(s: Core, t: Tid, a: Action) {
    match a
    case Work(w) => WorkerCan(s, t, w)
    case Start(x) => StartCan(s, t, x)
    case Undo(x) => UndoCan(s, t, x)
    case Stop(x) => StopCan(s, t, x)
    case Query(x) => QueryCan(s, t, x)
  }

  function Do(cfg: Config, s: Core, t: Tid, a: Action): Core
    requires Can(s, t, a)
  {
    match a
    case Work(w) => WorkerDo(cfg, s, t, w)
    case Start(x) => StartDo(cfg, s, t, x)
    case Undo(x) => UndoDo(s, t, x)
    case Stop(x) => StopDo(s, t, x)
    case Query(x) => QueryDo(s, t, x)
  }
}
