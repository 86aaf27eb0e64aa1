/**
 What the client must do, not only what it must avoid: which records it hands out,
 what ends a session and with which fault, when it stops, and what it shows.
 */
module ClientDuties {
  import opened Sequence
  import opened ClientData
  import opened StreamHistory
  import opened ClientLifecycle
  import opened ClientControl
  import opened ClientRuns
  import opened ClientFlags
  import opened ClientWorld
  import opened ClientHands
  import opened ClientSystem
  import opened ClientTheorems

  // ---------------------------------------------------------------------
  // Stopping
  // ---------------------------------------------------------------------

  predicate MarksStop(m: Move) {
    m.a.Stop? && m.a.stop.StopMarks?
  }

  predicate SetsFlags(m: Move) {
    m.a.Start? && m.a.start.StartSetsFlags?
  }

  predicate TakesFlagsBack(m: Move) {
    m.a.Undo? && m.a.undo.UndoesFlags?
  }

  predicate Creates(m: Move, w: Tid) {
    m.a.Start? && m.a.start.StartSpawns? && m.a.start.w == w
  }

  /** The moves before a `start` last set its flags. */
  function BeforeFlags(moves: seq<Move>): (r: seq<Move>)
    ensures |r| <= |moves|
  {
    if moves == [] then []
    else if SetsFlags(moves[|moves| - 1]) then moves[..|moves| - 1]
    else BeforeFlags(moves[..|moves| - 1])
  }

  /** A `stop` was called after the last `start` that was not undone. */
  predicate StopAsked(moves: seq<Move>)
    decreases |moves|
  {
    moves != [] &&
    var init, m := moves[..|moves| - 1], moves[|moves| - 1];
    if MarksStop(m) then true
    else if SetsFlags(m) then false
    else if TakesFlagsBack(m) then StopAsked(BeforeFlags(init))
    else StopAsked(init)
  }

  function StoppingAfter(s: Core, a: Action): bool {
    if a == Stop(StopMarks) then true
    else if a == Start(StartSetsFlags) then false
    else if a == Undo(UndoesFlags) && IsOpening(s) then s.lock.value.section.saved.stopping
    else s.stopping
  }

  lemma StartMovesStopping(cfg: Config, s: Core, t: Tid, a: StartAction)
    requires StartCan(s, t, a)
    ensures StartDo(cfg, s, t, a).stopping == StoppingAfter(s, Start(a))
  {
  }

  lemma StopMovesStopping(s: Core, t: Tid, a: StopAction)
    requires StopCan(s, t, a)
    ensures StopDo(s, t, a).stopping == StoppingAfter(s, Stop(a))
  {
  }

  lemma StepMovesStopping(cfg: Config, s: Core, t: Tid, a: Action)
    requires Can(s, t, a)
    ensures Do(cfg, s, t, a).stopping == StoppingAfter(s, a)
  {
    match a
    case Start(x) => StartMovesStopping(cfg, s, t, x);
    case Stop(x) => StopMovesStopping(s, t, x);
    case _ =>
  }

  /** Between the flags and the spawn, or the undoing, of a `start` nobody else
      touches them. */
  lemma FlagsAheadFollows(cfg: Config, s: Core, t: Tid, a: Action)
    requires ControlInv(s) && FlagsOk(s) && Can(s, t, a) && FlagsAhead(Do(cfg, s, t, a))
    ensures
      var saved' := Do(cfg, s, t, a).lock.value.section.saved;
      if a == Start(StartSetsFlags) then saved'.stopping == s.stopping
      else FlagsAhead(s) && saved' == s.lock.value.section.saved && a != Stop(StopMarks) && a != Undo(UndoesFlags)
  {
    match a
    case Work(x) => assert false;
    case Start(x) => StartKeepsSaved(cfg, s, t, x);
    case Stop(x) => StopPhases(s, t, x);
    case Undo(x) => UndoPhases(s, t, x);
    case Query(x) => QueryShowsLock(s, t, x);
  }

  ghost predicate AskedInv(s: Core, moves: seq<Move>) {
    && s.stopping == StopAsked(moves)
    && (FlagsAhead(s) ==> !s.stopping && s.lock.value.section.saved.stopping == StopAsked(BeforeFlags(moves)))
  }

  lemma {:induction false} AskedKept(cfg: Config, s: Core, moves: seq<Move>, m: Move)
    requires ControlInv(s) && FlagsOk(s) && AskedInv(s, moves) && Can(s, m.t, m.a)
    ensures AskedInv(Do(cfg, s, m.t, m.a), moves + [m])
  {
    var s', longer := Do(cfg, s, m.t, m.a), moves + [m];
    assert longer[..|longer| - 1] == moves && longer[|longer| - 1] == m;
    StepMovesStopping(cfg, s, m.t, m.a);
    if FlagsAhead(s') {
      FlagsAheadFollows(cfg, s, m.t, m.a);
    }
  }

  /** The worker was created, and a `stop` was called after that. */
  ghost predicate StoppedSince(moves: seq<Move>, w: Tid) {
    exists i, k :: 0 <= i < k < |moves| && Creates(moves[i], w) && MarksStop(moves[k])
  }

  ghost predicate Created(moves: seq<Move>, w: Tid) {
    exists i :: 0 <= i < |moves| && Creates(moves[i], w)
  }

  ghost predicate OwnerInv(s: Core, moves: seq<Move>) {
    Owner(s).Some? ==> Created(moves, Owner(s).value) && (s.stopping ==> StoppedSince(moves, Owner(s).value))
  }

  lemma OwnerFollows(cfg: Config, s: Core, t: Tid, a: Action)
    requires ControlInv(s) && Can(s, t, a) && Owner(Do(cfg, s, t, a)).Some?
    ensures
      var w := Owner(Do(cfg, s, t, a)).value;
      || (a == Start(StartSpawns(w)) && FlagsAhead(s))
      || (Owner(s) == Some(w) && a != Start(StartSetsFlags) && a != Undo(UndoesFlags))
  {
    match a
    case Work(x) =>
    case Start(x) => StartKeepsOwner(cfg, s, t, x);
    case Stop(x) => StopKeepsOwner(s, t, x);
    case Undo(x) => UndoPhases(s, t, x);
    case Query(x) => QueryTouchesWire(s, t, x);
  }

  lemma StartKeepsOwner(cfg: Config, s: Core, t: Tid, a: StartAction)
    requires ControlInv(s) && StartCan(s, t, a) && Owner(StartDo(cfg, s, t, a)).Some?
    ensures
      var w := Owner(StartDo(cfg, s, t, a)).value;
      (a == StartSpawns(w) && FlagsAhead(s)) || (Owner(s) == Some(w) && !a.StartSetsFlags?)
  {
  }

  lemma StopKeepsOwner(s: Core, t: Tid, a: StopAction)
    requires ControlInv(s) && StopCan(s, t, a) && Owner(StopDo(s, t, a)).Some?
    ensures Owner(s) == Owner(StopDo(s, t, a))
  {
  }

  lemma OwnerKept(cfg: Config, s: Core, moves: seq<Move>, m: Move)
    requires ControlInv(s) && AskedInv(s, moves) && OwnerInv(s, moves) && Can(s, m.t, m.a)
    ensures OwnerInv(Do(cfg, s, m.t, m.a), moves + [m])
  {
    var s', longer := Do(cfg, s, m.t, m.a), moves + [m];
    if Owner(s').Some? {
      var w := Owner(s').value;
      OwnerFollows(cfg, s, m.t, m.a);
      StepMovesStopping(cfg, s, m.t, m.a);
      if Creates(m, w) && FlagsAhead(s) {
        assert Creates(longer[|moves|], w);
      } else {
        OwnerStays(moves, m, w, s.stopping, s'.stopping);
      }
    }
  }

  lemma OwnerStays(moves: seq<Move>, m: Move, w: Tid, stopping: bool, stopping': bool)
    requires Created(moves, w) && (stopping ==> StoppedSince(moves, w)) && (stopping' ==> stopping || MarksStop(m))
    ensures Created(moves + [m], w) && (stopping' ==> StoppedSince(moves + [m], w))
  {
    var longer := moves + [m];
    var i :| 0 <= i < |moves| && Creates(moves[i], w);
    assert Creates(longer[i], w);
    if stopping {
      var j, k :| 0 <= j < k < |moves| && Creates(moves[j], w) && MarksStop(moves[k]);
      assert Creates(longer[j], w) && MarksStop(longer[k]);
    } else if MarksStop(m) {
      assert MarksStop(longer[|moves|]);
    }
  }

  ghost predicate MovesInv(s: Core, moves: seq<Move>) {
    AskedInv(s, moves) && OwnerInv(s, moves)
  }

  lemma LeadsDoes(cfg: Config, p: System, m: Move, y: System)
    requires Leads(cfg, p, m, y)
    ensures Can(p.core, m.t, m.a) && y.core == Do(cfg, p.core, m.t, m.a)
  {
  }

  lemma MovesKept(cfg: Config, p: System, moves: seq<Move>, m: Move, y: System)
    requires CoreInv(cfg, p.core) && MovesInv(p.core, moves) && Leads(cfg, p, m, y)
    ensures MovesInv(y.core, moves + [m])
  {
    LeadsDoes(cfg, p, m, y);
    AskedKept(cfg, p.core, moves, m);
    OwnerKept(cfg, p.core, moves, m);
  }

  datatype Past = Past(moves: seq<Move>, y: System)

  /** The set holds the beginning and whatever a further move leads to. */
  ghost predicate Inductive(cfg: Config, good: iset<Past>) {
    && Past([], SYSTEM_INITIAL) in good
    && forall p: Past, m, y :: p in good && SystemInv(cfg, p.y) && Leads(cfg, p.y, m, y) ==>
         Past(p.moves + [m], y) in good
  }

  lemma Rejoin(moves: seq<Move>)
    requires moves != []
    ensures moves[..|moves| - 1] + [moves[|moves| - 1]] == moves
  {
  }

  lemma LastMove(cfg: Config, moves: seq<Move>, y: System) returns (p: System)
    requires ValidConfig(cfg) && Reaches(cfg, moves, y) && moves != []
    ensures Reaches(cfg, moves[..|moves| - 1], p) && SystemInv(cfg, p) && Leads(cfg, p, moves[|moves| - 1], y)
  {
    var m := moves[|moves| - 1];
    p :| Reaches(cfg, moves[..|moves| - 1], p) && Leads(cfg, p, m, y);
    EveryReachableState(cfg, moves[..|moves| - 1], p);
  }

  lemma {:induction false} InductionOverRuns(cfg: Config, good: iset<Past>, moves: seq<Move>, y: System)
    requires ValidConfig(cfg) && Inductive(cfg, good) && Reaches(cfg, moves, y)
    ensures Past(moves, y) in good
  {
    if moves != [] {
      var p := LastMove(cfg, moves, y);
      InductionOverRuns(cfg, good, moves[..|moves| - 1], p);
      OneGoodMove(cfg, good, moves[..|moves| - 1], p, moves[|moves| - 1], y);
      Rejoin(moves);
    }
  }

  lemma OneGoodMove(cfg: Config, good: iset<Past>, init: seq<Move>, p: System, m: Move, y: System)
    requires Inductive(cfg, good) && Past(init, p) in good && SystemInv(cfg, p) && Leads(cfg, p, m, y)
    ensures Past(init + [m], y) in good
  {
    assert Past(init, p).y == p;
  }

  lemma MovesStart()
    ensures MovesInv(SYSTEM_INITIAL.core, [])
  {
  }

  lemma MovesInEveryRun(cfg: Config, moves: seq<Move>, y: System)
    requires ValidConfig(cfg) && Reaches(cfg, moves, y)
    ensures MovesInv(y.core, moves)
  {
    var good := iset p: Past | MovesInv(p.y.core, p.moves);
    MovesStart();
    forall p: Past, m, y' | p in good && SystemInv(cfg, p.y) && Leads(cfg, p.y, m, y')
      ensures Past(p.moves + [m], y') in good
    {
      MovesKept(cfg, p.y, p.moves, m, y');
    }
    InductionOverRuns(cfg, good, moves, y);
  }

  /** In every run `stopping_` is set exactly when a `stop` was called after the last
      `start` that was not undone. */
  lemma StoppingExactlyWhen(cfg: Config, moves: seq<Move>, y: System)
    requires InSomeRun(cfg, moves, y)
    ensures y.core.stopping <==> StopAsked(moves)
  {
    MovesInEveryRun(cfg, moves, y);
  }

  /** In every run, a worker that has ended left a fault, or `stop` was called after
      its creation. */
  lemma EndedForItsOwnReason(cfg: Config, moves: seq<Move>, y: System, w: Tid)
    requires InSomeRun(cfg, moves, y) && y.core.handle == Some(w) && !IsAlive(y.core, w) && !Faulty(y.core.shared)
    ensures StoppedSince(moves, w)
  {
    EveryReachableState(cfg, moves, y);
    EndedForAReason(cfg, y.core, w);
    MovesInEveryRun(cfg, moves, y);
  }

  /** In every run, a worker past its first test that nobody stopped since its
      creation, and that left no fault, has begun a session. */
  lemma WorkerBeginsASession(cfg: Config, moves: seq<Move>, y: System, w: Tid)
    requires InSomeRun(cfg, moves, y) && IsAlive(y.core, w) && !WorkerOf(y.core, w).at.AtLoop?
    requires !StoppedSince(moves, w) && !Faulty(y.core.shared)
    ensures WorkerOf(y.core, w).run.begun > 0
  {
    EveryReachableState(cfg, moves, y);
    MovesInEveryRun(cfg, moves, y);
    WorkerIsSound(cfg, y.core, w);
  }

  lemma WorkerIsSound(cfg: Config, s: Core, w: Tid)
    requires ControlInv(s) && RunInv(cfg, s) && IsAlive(s, w)
    ensures Owner(s) == Some(w)
    ensures WorkerOf(s, w).run.begun == 0 && !WorkerOf(s, w).at.AtLoop? ==> Faulty(s.shared) || s.stopping
  {
    var _ := WorkerOf(s, w);
  }

  // ---------------------------------------------------------------------
  // What becomes of a record
  // ---------------------------------------------------------------------

  predicate IsSerious(r: RawRecord) {
    r.status != 0 && r.status != 0x80010000
  }

  /** The record is new: it advances the RDT numbers and the F/T counter, or is the
      first of either. */
  predicate IsNew(w: World, r: RawRecord) {
    var rdt, ft := RdtObserve(w.d.rdt, r.rdt).1.kind, FtObserve(w.d.ft, r.ft).1;
    (rdt.First? || rdt.Contiguous? || rdt.Gap?) && (ft.FtFirst? || ft.Forward? || ft.Restart?)
  }

  /** The last completed delivery of the run is far enough back. */
  predicate IsDue(cfg: Config, w: World, at: real) {
    cfg.rateLimit == 0.0 || w.h.delivered == []
    || at - w.h.delivered[|w.h.delivered| - 1] >= 1.0 / cfg.rateLimit
  }

  predicate MustHandOut(cfg: Config, w: World, r: RawRecord, at: real) {
    IsNew(w, r) && (!IsSerious(r) || cfg.deliverErrors) && IsDue(cfg, w, at)
  }

  lemma DueIsNotTooSoon(cfg: Config, w: World, at: real)
    requires ValidConfig(cfg) && Paced(cfg, w.h.delivered, w.d.lastDeliveryAt)
    ensures IsDue(cfg, w, at) <==> !TooSoon(cfg, w.d.lastDeliveryAt, at)
  {
  }

  lemma NewIsNotSuppressed(cfg: Config, w: World, r: RawRecord)
    ensures
      var rdt, ft := RdtObserve(w.d.rdt, r.rdt).1.kind, FtObserve(w.d.ft, r.ft).1;
      IsNew(w, r) && (!IsSerious(r) || cfg.deliverErrors) <==> !Suppressed(cfg, rdt, ft, ClassifyStatus(r.status))
  {
  }

  /** What ends the session after the record: a serious status; under FailStop also an
      F/T counter that stalls or moves backward. */
  function MustEnd(cfg: Config, w: World, r: RawRecord): Option<SessionResult> {
    var ft := FtObserve(w.d.ft, r.ft).1;
    if IsSerious(r) then Some(SeriousStatus)
    else if cfg.policy.Reconnect? then None
    else if ft.Stall? then Some(FtStalled)
    else if ft.Backward? then Some(FtMovedBackward)
    else None
  }

  /** The verdict on a record, from what is known before it. */
  lemma VerdictIsDue(cfg: Config, w: World, r: RawRecord, at: real)
    requires ValidConfig(cfg) && w.d.health.configuration.Some? && Paced(cfg, w.h.delivered, w.d.lastDeliveryAt)
    ensures Observe(cfg, w.d, r, at).1 == Some(Verdict(MustHandOut(cfg, w, r, at), MustEnd(cfg, w, r)))
  {
    DueIsNotTooSoon(cfg, w, at);
    NewIsNotSuppressed(cfg, w, r);
  }

  ghost predicate HandsOut(w: World, w': World, r: RawRecord, at: real) {
    && |w'.h.handed| == |w.h.handed| + 1 && w'.h.handed[..|w.h.handed|] == w.h.handed
    && w'.h.handed[|w.h.handed|].sample.raw == r && w'.h.handed[|w.h.handed|].sample.receivedAt == at
  }

  lemma RecordHandsOut(cfg: Config, w: World, r: RawRecord, at: real)
    requires ValidConfig(cfg) && Guard(cfg, w, Event.Record(r, at)) && ScaleInv(w)
    requires Paced(cfg, w.h.delivered, w.d.lastDeliveryAt)
    ensures
      var w' := Next(cfg, w, Event.Record(r, at));
      if MustHandOut(cfg, w, r, at) then HandsOut(w, w', r, at) else w'.h.handed == w.h.handed
  {
    RecordRelates(cfg, w, r, at);
    DueIsNotTooSoon(cfg, w, at);
    NewIsNotSuppressed(cfg, w, r);
  }

  /** Facts of a reachable state in which the worker has a record. */
  lemma AtARecord(cfg: Config, y: System, t: Tid)
    requires SystemInv(cfg, y) && IsAlive(y.core, t) && WorkerOf(y.core, t).at.AtRecord?
    ensures Guard(cfg, y.world, Event.Record(WorkerOf(y.core, t).at.r, WorkerOf(y.core, t).at.at))
    ensures Paced(cfg, y.world.h.delivered, y.world.d.lastDeliveryAt) && ScaleInv(y.world)
  {
    var at := WorkerOf(y.core, t).at;
    assert Owner(y.core) == Some(t) && !IsOpening(y.core);
    RecordIsGuarded(y.core.shared, at, y.world, y.pushed);
  }

  lemma RecordIsGuarded(d: Shared, at: Point, w: World, pushed: nat)
    requires at.AtRecord? && StreamOk(d, at) && CoreView(d) == DataView(w) && PointOk(at, w.h, pushed)
    ensures forall cfg :: Guard(cfg, w, Event.Record(at.r, at.at))
  {
  }

  /** The step that handles a record does what it must. */
  ghost predicate RecordDone(cfg: Config, w: World, w': World, r: RawRecord, at: real, verdict: Verdict) {
    && verdict == Verdict(MustHandOut(cfg, w, r, at), MustEnd(cfg, w, r))
    && (if verdict.deliver then HandsOut(w, w', r, at) else w'.h.handed == w.h.handed)
  }

  lemma RecordIsDone(cfg: Config, y: System, t: Tid, verdict: Verdict, sample: Sample, c: Choice)
    requires ValidConfig(cfg) && SystemInv(cfg, y) && WorkerCan(y.core, t, HandlesRecord(verdict, sample))
    requires WorkFits(cfg, y.world, WorkerOf(y.core, t).at, HandlesRecord(verdict, sample), c)
    ensures
      var at, w' := WorkerOf(y.core, t).at, WorkStep(cfg, y, t, HandlesRecord(verdict, sample), c).world;
      RecordDone(cfg, y.world, w', at.r, at.at, verdict)
  {
    AtARecord(cfg, y, t);
    var at := WorkerOf(y.core, t).at;
    VerdictIsDue(cfg, y.world, at.r, at.at);
    RecordHandsOut(cfg, y.world, at.r, at.at);
  }

  /** In every run a record is handed to the callback if and only if it is new, not
      serious unless errors are delivered, and due; and the session then ends as its
      status and, under FailStop, the F/T counter say. */
  lemma RecordsInEveryRun(
    cfg: Config, moves: seq<Move>, y: System, t: Tid, verdict: Verdict, sample: Sample, c: Choice)
    requires InSomeRun(cfg, moves, y) && Enabled(cfg, y, t, Work(HandlesRecord(verdict, sample)), c)
    ensures
      var at, w' := WorkerOf(y.core, t).at, WorkStep(cfg, y, t, HandlesRecord(verdict, sample), c).world;
      RecordDone(cfg, y.world, w', at.r, at.at, verdict)
  {
    EveryReachableState(cfg, moves, y);
    RecordIsDone(cfg, y, t, verdict, sample, c);
  }

  // ---------------------------------------------------------------------
  // What ends a session, and the fault it leaves
  // ---------------------------------------------------------------------

  /** The fault that the step of a session calls for when it ends the session, nobody
      having called `stop`; none where the session goes on. */
  function CalledFor(cfg: Config, at: Point, a: WorkAction): FaultCode {
    match a
    case DiscoveryFails => SensorConfigurationFault
    case ConnectFails => SocketFault
    case StartStream(ok) => if ok then NoFault else SocketFault
    case ReceiveThrows => SocketFault
    case CountsTimeout => TimeoutFault
    case GetsMalformed(storm) => if storm then MalformedStormFault else NoFault
    case HandlesRecord(verdict, _) => if verdict.deliver then NoFault else RecordFault(verdict.outcome)
    case CompletesDelivery => if at.AtReturned? then RecordFault(at.outcome) else NoFault
    case RecordsError =>
      if at.AtThrew? && at.outcome.Some? then RecordFault(at.outcome)
      else if cfg.policy.FailStop? then CallbackFault
      else NoFault
    case _ => NoFault
  }

  function RecordFault(outcome: Option<SessionResult>): FaultCode {
    if outcome == Some(SeriousStatus) then SeriousStatusFault
    else if outcome == Some(FtStalled) then FtStallFault
    else if outcome == Some(FtMovedBackward) then FtBackwardFault
    else NoFault
  }

  /** Points of a session that goes on. */
  predicate InSession(at: Point) {
    BeforeStream(at) || at.AtTracking? || at.AtReceive? || at.AtWaiting? || at.AtTimeout? || at.AtRecord? || Handing(at)
  }

  predicate Over(at: Point) {
    at.AtFailure? || at.AtSessionEnd? || at.AtClosed?
  }

  predicate RecordOutcome(outcome: Option<SessionResult>) {
    outcome.None? || outcome == Some(SeriousStatus) || outcome == Some(FtStalled) || outcome == Some(FtMovedBackward)
  }

  predicate HasRecordOutcome(at: Point, a: WorkAction) {
    && (Handing(at) ==> RecordOutcome(at.outcome))
    && (a.HandlesRecord? ==> RecordOutcome(a.verdict.outcome))
  }

  /** The session ends exactly at the steps that call for a fault, with the result that
      stands for it. */
  lemma StepEndsSession(cfg: Config, d: Shared, at: Point, a: WorkAction)
    requires WorkerAt(at, a) && InSession(at) && !a.Throws? && HasRecordOutcome(at, a)
    requires at.AtRecord? ==> d.configured
    ensures
      var p := NextPoint(cfg, d, false, at, a);
      && (Over(p) <==> CalledFor(cfg, at, a) != NoFault)
      && (Over(p) ==> FaultFor(p.result) == CalledFor(cfg, at, a))
      && (!Over(p) ==> InSession(p))
  {
  }

  /** On its way out a session keeps its result, and under FailStop latches the fault
      that stands for it unless one is latched already. */
  lemma ResultTravels(cfg: Config, d: Shared, stopping: bool, at: Point, a: WorkAction)
    requires WorkerAt(at, a) && Over(at)
    ensures
      var p, d' := NextPoint(cfg, d, stopping, at, a), NextShared(cfg, d, stopping, at, a);
      && (a.ResolveFailure? ==> p.AtSessionEnd? && p.result == if stopping then SessionStopped else at.result)
      && (a.ClosesSession? ==> p.AtClosed? && p.result == at.result)
      && (a.DecidesNext? && cfg.policy.FailStop? && !at.result.SessionStopped? ==>
            d'.fault == if Faulty(d) then d.fault else FaultFor(at.result))
  {
  }

  /** What a record may have called for while its sample is in the callback. */
  ghost predicate OutcomeInv(s: Core) {
    forall t {:trigger WorkerOf(s, t)} ::
      WorkerOf(s, t).Alive? && Handing(WorkerOf(s, t).at) ==> RecordOutcome(WorkerOf(s, t).at.outcome)
  }

  lemma HandingFollows(cfg: Config, d: Shared, stopping: bool, at: Point, a: WorkAction)
    requires WorkerAt(at, a) && HasRecordOutcome(at, a)
    ensures
      var p := NextPoint(cfg, d, stopping, at, a);
      Handing(p) ==> RecordOutcome(p.outcome)
  {
  }

  lemma WorkKeepsOutcome(cfg: Config, s: Core, t: Tid, a: WorkAction)
    requires OutcomeInv(s) && WorkerCan(s, t, a) && (a.HandlesRecord? ==> RecordOutcome(a.verdict.outcome))
    ensures OutcomeInv(WorkerDo(cfg, s, t, a))
  {
    var s' := WorkerDo(cfg, s, t, a);
    HandingFollows(cfg, s.shared, s.stopping, WorkerOf(s, t).at, a);
    assert forall x :: x != t ==> WorkerOf(s', x) == WorkerOf(s, x);
  }

  lemma SameWorkersKeepOutcome(s: Core, s': Core)
    requires OutcomeInv(s)
    requires forall x {:trigger WorkerOf(s', x)} ::
               WorkerOf(s', x) == WorkerOf(s, x) || !WorkerOf(s', x).Alive? || WorkerOf(s', x).at.AtLoop?
    ensures OutcomeInv(s')
  {
  }

  lemma OthersKeepWorkers(cfg: Config, s: Core, t: Tid, a: Action, x: Tid)
    requires Can(s, t, a) && !a.Work?
    ensures
      var s' := Do(cfg, s, t, a);
      WorkerOf(s', x) == WorkerOf(s, x) || !WorkerOf(s', x).Alive? || WorkerOf(s', x).at.AtLoop?
  {
  }

  lemma JudgedOutcome(cfg: Config, y: System, t: Tid, verdict: Verdict, sample: Sample, c: Choice)
    requires SystemInv(cfg, y) && WorkerCan(y.core, t, HandlesRecord(verdict, sample))
    requires WorkFits(cfg, y.world, WorkerOf(y.core, t).at, HandlesRecord(verdict, sample), c)
    ensures RecordOutcome(verdict.outcome)
  {
    AtARecord(cfg, y, t);
  }

  lemma OutcomeKept(cfg: Config, p: System, m: Move, y: System)
    requires SystemInv(cfg, p) && OutcomeInv(p.core) && Leads(cfg, p, m, y)
    ensures OutcomeInv(y.core)
  {
    LeadsDoes(cfg, p, m, y);
    if m.a.Work? {
      if m.a.work.HandlesRecord? {
        JudgedOutcome(cfg, p, m.t, m.a.work.verdict, m.a.work.sample, m.c);
      }
      WorkKeepsOutcome(cfg, p.core, m.t, m.a.work);
    } else {
      forall x {:trigger WorkerOf(y.core, x)}
        ensures WorkerOf(y.core, x) == WorkerOf(p.core, x) || !WorkerOf(y.core, x).Alive?
                || WorkerOf(y.core, x).at.AtLoop?
      {
        OthersKeepWorkers(cfg, p.core, m.t, m.a, x);
      }
      SameWorkersKeepOutcome(p.core, y.core);
    }
  }

  lemma OutcomesInEveryRun(cfg: Config, moves: seq<Move>, y: System)
    requires ValidConfig(cfg) && Reaches(cfg, moves, y)
    ensures OutcomeInv(y.core)
  {
    var good := iset p: Past | OutcomeInv(p.y.core);
    forall p: Past, m, y' | p in good && SystemInv(cfg, p.y) && Leads(cfg, p.y, m, y')
      ensures Past(p.moves + [m], y') in good
    {
      OutcomeKept(cfg, p.y, m, y');
    }
    InductionOverRuns(cfg, good, moves, y);
  }

  /** In every run, while nobody has called `stop`, a session ends exactly at a step
      that calls for a fault, with the result that stands for that fault. */
  lemma SessionsEndInEveryRun(cfg: Config, moves: seq<Move>, y: System, t: Tid, a: WorkAction, c: Choice)
    requires InSomeRun(cfg, moves, y) && Enabled(cfg, y, t, Work(a), c) && !y.core.stopping && !a.Throws?
    requires InSession(WorkerOf(y.core, t).at)
    ensures
      var at := WorkerOf(y.core, t).at;
      var p := NextPoint(cfg, y.core.shared, false, at, a);
      && (Over(p) <==> CalledFor(cfg, at, a) != NoFault)
      && (Over(p) ==> FaultFor(p.result) == CalledFor(cfg, at, a))
      && (!Over(p) ==> InSession(p))
  {
    EveryReachableState(cfg, moves, y);
    OutcomesInEveryRun(cfg, moves, y);
    if a.HandlesRecord? {
      JudgedOutcome(cfg, y, t, a.verdict, a.sample, c);
      ConfigurationIsKnown(cfg, y.core, t);
    }
    var at := WorkerOf(y.core, t).at;
    StepEndsSession(cfg, y.core.shared, at, a);
  }
}
