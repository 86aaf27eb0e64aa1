/**
 Every step of the client, by any thread, is one of the visible moves.
 */
module ClientFacade {
  import opened ClientData
  import opened ClientMoves
  import opened StreamHistory
  import opened ClientLifecycle
  import opened ClientControl
  import opened ClientRuns
  import opened ClientAttempts
  import opened ClientWorld
  import opened ClientHands
  import opened ClientSystem

  function FacadeOf(s: Core, pushed: nat): Facade {
    Facade(HasWorker(s), Faulty(s.shared), s.shared.delivered == s.shared.generation,
           HasWorker(s) && WorkerOf(s, Owner(s).value).at.AtReturned?, pushed)
  }

  function Abstract(y: System): Facade {
    FacadeOf(y.core, y.pushed)
  }

  predicate Replies(s: Core, t: Tid) {
    CallOf(s, t).Waiting? && WaitAnswer(s, t)
  }

  function WorkLabel(y: System, t: Tid, a: WorkAction): Label
    requires WorkerCan(y.core, t, a)
  {
    if a.CallbackReturns? then Takes(WorkerOf(y.core, t).at.sample, |y.world.h.handed|)
    else if a.CompletesDelivery? then Completes else Works
  }

  function StartLabel(s: Core, t: Tid, a: StartAction): Label {
    if a.StartOpens? then Opens(t)
    else if a.StartSpawns? then Spawns(t)
    else if a.StartThrows? then (if IsAlive(s, t) then CallsItself(t) else Refuses(t))
    else Silent
  }

  function UndoLabel(t: Tid, a: UndoAction): Label {
    if a.UndoesPublish? then GivesUp(t) else Undoes(t)
  }

  function StopLabel(t: Tid, a: StopAction): Label {
    if a.StopFindsNone? || a.StopFinishes? then StopReturns(t)
    else if a.StopReturnsToWorker? then CallsItself(t) else Silent
  }

  function QueryLabel(s: Core, t: Tid, a: QueryAction): Label {
    if a.WaitReturns? then Answers(t, Replies(s, t)) else Silent
  }

  function LabelOf(y: System, t: Tid, a: Action): Label
    requires Can(y.core, t, a)
  {
    match a
    case Work(x) => WorkLabel(y, t, x)
    case Start(x) => StartLabel(y.core, t, x)
    case Undo(x) => UndoLabel(t, x)
    case Stop(x) => StopLabel(t, x)
    case Query(x) => QueryLabel(y.core, t, x)
  }

  // ---------------------------------------------------------------------
  // Every step is one of them
  // ---------------------------------------------------------------------

  lemma WorkerShows(cfg: Config, d: Shared, stopping: bool, at: Point, a: WorkAction)
    requires WorkerAt(at, a)
    ensures
      var d' := NextShared(cfg, d, stopping, at, a);
      && (Faulty(d) ==> Faulty(d')) && d'.generation == d.generation
      && (a.CompletesDelivery? || d'.delivered == d.delivered)
      && (a.CompletesDelivery? ==> d'.delivered == d.generation && Faulty(d') == Faulty(d))
      && (a.CallbackReturns? ==> Faulty(d') == Faulty(d))
  {
  }

  lemma WorkerGoes(cfg: Config, d: Shared, stopping: bool, at: Point, a: WorkAction)
    requires WorkerAt(at, a)
    ensures NextPoint(cfg, d, stopping, at, a).AtReturned? <==> a.CallbackReturns?
    ensures at.AtReturned? <==> a.CompletesDelivery?
    ensures a.CallbackReturns? ==> at.AtCallback?
    ensures a.Ends? ==> !at.AtCallback? && !at.AtReturned?
  {
  }

  lemma WorkMoves(cfg: Config, y: System, t: Tid, a: WorkAction, c: Choice)
    requires SystemInv(cfg, y) && WorkerCan(y.core, t, a)
    ensures Moves(Abstract(y), WorkLabel(y, t, a), Abstract(WorkStep(cfg, y, t, a, c)))
  {
    var s, at := y.core, WorkerOf(y.core, t).at;
    assert Owner(s) == Some(t);
    var s' := WorkerDo(cfg, s, t, a);
    assert Owner(s') == Some(t);
    WorkerShows(cfg, s.shared, s.stopping, at, a);
    WorkerGoes(cfg, s.shared, s.stopping, at, a);
  }

  /** Steps of `start` that show nothing. */
  lemma StartHides(cfg: Config, s: Core, t: Tid, a: StartAction)
    requires ControlInv(s) && StartCan(s, t, a) && !a.StartOpens? && !a.StartSpawns?
    ensures
      var d, d' := s.shared, StartDo(cfg, s, t, a).shared;
      d'.fault == d.fault && d'.delivered == d.delivered && d'.generation == d.generation
    ensures HasWorker(s) ==> HasWorker(StartDo(cfg, s, t, a))
  {
    var s' := StartDo(cfg, s, t, a);
    assert Owner(s).Some? ==> WorkerOf(s', Owner(s).value) == WorkerOf(s, Owner(s).value);
  }

  lemma OpeningMoves(cfg: Config, s: Core, t: Tid, pushed: nat)
    requires ControlInv(s) && StartCan(s, t, StartOpens)
    ensures Moves(FacadeOf(s, pushed), Opens(t), FacadeOf(StartDo(cfg, s, t, StartOpens), pushed))
  {
    assert !HasWorker(s);
  }

  lemma SpawningMoves(cfg: Config, s: Core, t: Tid, w: Tid, pushed: nat)
    requires ControlInv(s) && RunInv(cfg, s) && NumbersInv(s) && StartCan(s, t, StartSpawns(w))
    ensures Moves(FacadeOf(s, pushed), Spawns(t), FacadeOf(StartDo(cfg, s, t, StartSpawns(w)), pushed))
  {
    assert !HasWorker(s);
  }

  lemma HiddenMoves(cfg: Config, s: Core, t: Tid, a: StartAction, pushed: nat)
    requires ControlInv(s) && StartCan(s, t, a) && !a.StartOpens? && !a.StartSpawns?
    ensures Moves(FacadeOf(s, pushed), StartLabel(s, t, a), FacadeOf(StartDo(cfg, s, t, a), pushed))
  {
    StartKeepsWorkers(cfg, s, t, a);
    StartHides(cfg, s, t, a);
    if a.StartThrows? {
      StartRefusesOnlyRunning(s, t);
      assert IsAlive(s, t) ==> Owner(s) == Some(t);
    }
  }

  lemma StartMoves(cfg: Config, s: Core, t: Tid, a: StartAction, pushed: nat)
    requires CoreInv(cfg, s) && StartCan(s, t, a)
    ensures Moves(FacadeOf(s, pushed), StartLabel(s, t, a), FacadeOf(StartDo(cfg, s, t, a), pushed))
  {
    if a.StartOpens? {
      OpeningMoves(cfg, s, t, pushed);
    } else if a.StartSpawns? {
      SpawningMoves(cfg, s, t, a.w, pushed);
    } else {
      HiddenMoves(cfg, s, t, a, pushed);
    }
  }

  lemma UndoMoves(cfg: Config, s: Core, t: Tid, a: UndoAction, pushed: nat)
    requires CoreInv(cfg, s) && UndoCan(s, t, a)
    ensures Moves(FacadeOf(s, pushed), UndoLabel(t, a), FacadeOf(UndoDo(s, t, a), pushed))
  {
    UndoPhases(s, t, a);
    assert !HasWorker(s);
  }

  lemma StopShows(s: Core, t: Tid, a: StopAction)
    requires StopCan(s, t, a)
    ensures
      var d, d' := s.shared, StopDo(s, t, a).shared;
      d'.fault == d.fault && d'.delivered == d.delivered && d'.generation == d.generation
  {
  }

  lemma StopReturnsAlone(s: Core, t: Tid, a: StopAction)
    requires ControlInv(s) && StopCan(s, t, a)
    ensures a.StopFindsNone? || a.StopFinishes? ==> !HasWorker(s)
    ensures a.StopReturnsToWorker? ==> HasWorker(s)
    ensures HasWorker(s) ==> HasWorker(StopDo(s, t, a))
  {
    if a.StopReturnsToWorker? {
      EarlyReturnIsTheWorker(s, t);
      assert Owner(s) == Some(t);
    }
  }

  lemma StopMoves(cfg: Config, s: Core, t: Tid, a: StopAction, pushed: nat)
    requires CoreInv(cfg, s) && StopCan(s, t, a)
    ensures Moves(FacadeOf(s, pushed), StopLabel(t, a), FacadeOf(StopDo(s, t, a), pushed))
  {
    StopPhases(s, t, a);
    StopShows(s, t, a);
    StopReturnsAlone(s, t, a);
  }

  lemma QueryShows(s: Core, t: Tid, a: QueryAction)
    requires QueryCan(s, t, a)
    ensures SameNumbers(s.shared, QueryDo(s, t, a).shared) && QueryDo(s, t, a).shared.fault == s.shared.fault
    ensures QueryDo(s, t, a).handle == s.handle && QueryDo(s, t, a).joiner == s.joiner
    ensures QueryDo(s, t, a).workers == s.workers
  {
  }

  lemma QueryMoves(cfg: Config, s: Core, t: Tid, a: QueryAction, pushed: nat)
    requires QueryCan(s, t, a)
    ensures Moves(FacadeOf(s, pushed), QueryLabel(s, t, a), FacadeOf(QueryDo(s, t, a), pushed))
  {
    QueryShows(s, t, a);
  }

  /** Whatever any thread does, the owner sees one of the visible moves. */
  lemma EveryStepIsAMove(cfg: Config, y: System, t: Tid, a: Action, c: Choice)
    requires SystemInv(cfg, y) && Can(y.core, t, a)
    ensures Moves(Abstract(y), LabelOf(y, t, a), Abstract(Step(cfg, y, t, a, c)))
  {
    match a
    case Work(x) => WorkMoves(cfg, y, t, x, c);
    case Start(x) => StartMoves(cfg, y.core, t, x, y.pushed);
    case Undo(x) => UndoMoves(cfg, y.core, t, x, y.pushed);
    case Stop(x) => StopMoves(cfg, y.core, t, x, y.pushed);
    case Query(x) => QueryMoves(cfg, y.core, t, x, y.pushed);
  }

  lemma HandIsHanded(s: Core, h: History, pushed: nat, t: Tid)
    requires ControlInv(s) && HandsInv(s, h, pushed) && IsAlive(s, t) && WorkerOf(s, t).at.AtCallback?
    ensures 0 < |h.handed| && h.handed[|h.handed| - 1].sample == WorkerOf(s, t).at.sample
  {
    assert Owner(s) == Some(t);
  }

  /** The sample the callback takes is the one handed out at that place. */
  lemma TakenIsHanded(cfg: Config, y: System, t: Tid)
    requires SystemInv(cfg, y) && WorkerCan(y.core, t, CallbackReturns)
    ensures
      var l := WorkLabel(y, t, CallbackReturns);
      l.Takes? && 0 < l.place <= |y.world.h.handed| && y.world.h.handed[l.place - 1].sample == l.sample
  {
    HandIsHanded(y.core, y.world.h, y.pushed, t);
  }
}
