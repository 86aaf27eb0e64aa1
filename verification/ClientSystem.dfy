/**
 The invariant of the whole client, kept by every step of every thread, and what
 it says of every reachable state.
 */
module ClientSystem {
  import opened ClientData
  import opened StreamHistory
  import opened ClientLifecycle
  import opened ClientControl
  import opened ClientRuns
  import opened ClientAttempts
  import opened ClientWire
  import opened ClientFlags
  import opened ClientWorld
  import opened ClientHands
  import opened ClientRollback

  ghost predicate CoreInv(cfg: Config, s: Core) {
    ControlInv(s) && RunInv(cfg, s) && AttemptInv(s) && WireInv(s) && StopStands(s) && FlagsOk(s)
  }

  ghost predicate DataInv(cfg: Config, w: World) {
    StreamInv(cfg, w) && FaultShown(w.d)
  }

  /** What the worker, if there is one, has in its hands. */
  ghost predicate HandsInv(s: Core, h: History, pushed: nat) {
    pushed <= |h.handed| && (HasWorker(s) ==> PointOk(WorkerOf(s, Owner(s).value).at, h, pushed))
  }

  ghost predicate RollbackInv(cfg: Config, s: Core, w: World, kept: Kept, f: World) {
    if IsOpening(s) then Restorable(cfg, s.lock.value.section.phase, s.lock.value.section.saved, w, kept, f)
    else w.h.paced == w.h.delivered
  }

  /** The data are sound and in step with the threads. */
  ghost predicate WorldInv(cfg: Config, y: System) {
    && DataInv(cfg, y.world)
    && CoreView(y.core.shared) == DataView(y.world)
    && HandsInv(y.core, y.world.h, y.pushed)
    && RollbackInv(cfg, y.core, y.world, y.kept, y.first)
  }

  ghost predicate SystemInv(cfg: Config, y: System) {
    CoreInv(cfg, y.core) && WorldInv(cfg, y)
  }

  lemma CoreKept(cfg: Config, s: Core, t: Tid, a: Action)
    requires ValidConfig(cfg) && CoreInv(cfg, s) && Can(s, t, a)
    ensures CoreInv(cfg, Do(cfg, s, t, a))
  {
    ControlKept(cfg, s, t, a);
    RunKept(cfg, s, t, a);
    AttemptKept(cfg, s, t, a);
    WireKept(cfg, s, t, a);
    StopStandsKept(cfg, s, t, a);
    FlagsKept(cfg, s, t, a);
  }

  lemma EffectKeepsData(cfg: Config, w: World, e: Effect)
    requires Guarded(cfg, w, e) && DataInv(cfg, w) && (e.One? && e.e.Restore? ==> w.d.fault == NoFault)
    ensures DataInv(cfg, Perform(cfg, w, e))
  {
    GuardedKeepsStream(cfg, w, e);
    match e
    case Nothing =>
    case One(e) => FaultShownKept(cfg, w, e);
    case Two(e, f) =>
      StreamKept(cfg, w, e);
      FaultShownKept(cfg, w, e);
      FaultShownKept(cfg, Next(cfg, w, e), f);
  }

  // ---------------------------------------------------------------------
  // The worker
  // ---------------------------------------------------------------------

  lemma WorkEffectKeepsPace(cfg: Config, d: Shared, stopping: bool, at: Point, a: WorkAction, c: Choice)
    requires WorkerAt(at, a)
    ensures
      var e := WorkEffect(cfg, d, stopping, at, a, c);
      && (e.One? ==> !e.e.Forget? && !e.e.Open? && !e.e.RestorePace? && !e.e.Restore?)
      && (e.One? && e.e.Record? ==> a.HandlesRecord? && e.e == Event.Record(at.r, at.at))
  {
  }

  lemma PaceFollows(cfg: Config, w: World, e: Effect)
    requires Guarded(cfg, w, e) && ScaleInv(w) && w.h.paced == w.h.delivered
    requires e.One? ==> !e.e.Forget? && !e.e.Open? && !e.e.RestorePace? && !e.e.Restore?
    ensures Perform(cfg, w, e).h.paced == Perform(cfg, w, e).h.delivered
  {
    match e
    case Nothing =>
    case One(e) => PaceIsDelivery(cfg, w, e);
    case Two(e, f) =>
  }

  lemma WorkKeepsWorld(
    cfg: Config, d: Shared, stopping: bool, at: Point, a: WorkAction, c: Choice, w: World, pushed: nat)
    requires Working(cfg, d, at, a, c, w, pushed) && DataInv(cfg, w) && w.h.paced == w.h.delivered
    ensures
      var w' := Perform(cfg, w, WorkEffect(cfg, d, stopping, at, a, c));
      && DataInv(cfg, w') && w'.h.paced == w'.h.delivered
      && CoreView(NextShared(cfg, d, stopping, at, a)) == DataView(w')
  {
    var e := WorkEffect(cfg, d, stopping, at, a, c);
    WorkGuarded(cfg, d, stopping, at, a, c, w, pushed);
    WorkEffectKeepsPace(cfg, d, stopping, at, a, c);
    EffectKeepsData(cfg, w, e);
    PaceFollows(cfg, w, e);
    WorkAgrees(cfg, d, stopping, at, a, c);
    if a.HandlesRecord? {
      RecordInHand(cfg, w, at.r, at.at, a.verdict, a.sample);
    }
    GuardedView(cfg, w, e, Deliver(a));
  }

  lemma WorkerMovesAlone(
    cfg: Config, s: Core, t: Tid, d: Shared, k: Worker, w: World, kept: Kept, f: World, pushed: nat)
    requires ControlInv(s) && IsAlive(s, t)
    requires DataInv(cfg, w) && CoreView(d) == DataView(w) && w.h.paced == w.h.delivered
    requires pushed <= |w.h.handed| && (k.Alive? ==> PointOk(k.at, w.h, pushed))
    ensures WorldInv(cfg, System(s.(shared := d, workers := s.workers[t := k]), w, kept, f, pushed))
  {
    var s' := s.(shared := d, workers := s.workers[t := k]);
    assert Owner(s) == Some(t) == Owner(s') && !IsOpening(s);
    assert WorkerOf(s', t) == k;
  }

  lemma WorkKeepsSystem(cfg: Config, y: System, t: Tid, a: WorkAction, c: Choice)
    requires SystemInv(cfg, y) && WorkerCan(y.core, t, a) && WorkFits(cfg, y.world, WorkerOf(y.core, t).at, a, c)
    ensures WorldInv(cfg, WorkStep(cfg, y, t, a, c))
  {
    var s, w, y' := y.core, y.world, WorkStep(cfg, y, t, a, c);
    var at := WorkerOf(s, t).at;
    assert Owner(s) == Some(t) && !IsOpening(s);
    WorkKeepsWorld(cfg, s.shared, s.stopping, at, a, c, w, y.pushed);
    WorkKeepsPoint(cfg, s.shared, s.stopping, at, a, c, w, y.pushed);
    WorkerMovesAlone(cfg, s, t, y'.core.shared, y'.core.workers[t], y'.world, y.kept, y.first, y'.pushed);
  }

  // ---------------------------------------------------------------------
  // Callers
  // ---------------------------------------------------------------------

  /** The worker, if any, stays where it is. */
  predicate SameWorker(s: Core, s': Core) {
    && (HasWorker(s') ==> HasWorker(s) && Owner(s') == Owner(s))
    && (HasWorker(s) ==> WorkerOf(s', Owner(s).value) == WorkerOf(s, Owner(s).value))
  }

  lemma SameHands(s: Core, s': Core, h: History, h': History, pushed: nat)
    requires HandsInv(s, h, pushed) && SameWorker(s, s')
    requires h'.handed == h.handed && (HasWorker(s) ==> HandsOff(h, h'))
    ensures HandsInv(s', h', pushed)
  {
  }

  /** Steps of `start` that touch no data. */
  predicate DryStart(a: StartAction) {
    !a.StartForgets? && !a.StartOpens?
  }

  lemma DryStartKeepsView(cfg: Config, s: Core, t: Tid, a: StartAction)
    requires StartCan(s, t, a) && DryStart(a)
    ensures CoreView(StartDo(cfg, s, t, a).shared) == CoreView(s.shared)
  {
  }

  lemma StartKeepsWorkers(cfg: Config, s: Core, t: Tid, a: StartAction)
    requires ControlInv(s) && StartCan(s, t, a)
    ensures !a.StartSpawns? ==> SameWorker(s, StartDo(cfg, s, t, a))
    ensures a.StartSpawns? ==>
              var s' := StartDo(cfg, s, t, a);
              Owner(s') == Some(a.w) && WorkerOf(s', a.w).Alive? && WorkerOf(s', a.w).at == AtLoop
  {
  }

  /** A step without effect on the data. */
  lemma DryKeepsWorld(cfg: Config, y: System, s': Core, f: World)
    requires DataInv(cfg, y.world) && CoreView(y.core.shared) == DataView(y.world)
    requires CoreView(s'.shared) == CoreView(y.core.shared) && HandsInv(s', y.world.h, y.pushed)
    requires RollbackInv(cfg, s', y.world, y.kept, f)
    ensures WorldInv(cfg, System(s', y.world, y.kept, f, y.pushed))
  {
  }

  lemma DryStartKeepsHands(cfg: Config, s: Core, t: Tid, a: StartAction, h: History, pushed: nat)
    requires ControlInv(s) && HandsInv(s, h, pushed) && StartCan(s, t, a)
    ensures HandsInv(StartDo(cfg, s, t, a), h, pushed)
  {
    StartKeepsWorkers(cfg, s, t, a);
    if !a.StartSpawns? {
      SameHands(s, StartDo(cfg, s, t, a), h, h, pushed);
    }
  }

  lemma ClaimIsRestorable(cfg: Config, s: Core, w: World, kept: Kept)
    requires DataInv(cfg, w) && CoreView(s.shared) == DataView(w) && w.h.paced == w.h.delivered && !s.shared.pending
    ensures Restorable(cfg, ToForget, Save(s), w, kept, w)
  {
  }

  /** Phases between which nothing moves but flags. */
  predicate Adjacent(p: OpenPhase, q: OpenPhase) {
    || (p.ToSetFlags? && q.ToSpawn?) || (p.ToSpawn? && q.ToUndoFlags?) || (p.ToUndoFlags? && q.ToUndoPace?)
  }

  lemma AdjacentRestorable(cfg: Config, p: OpenPhase, q: OpenPhase, saved: Saved, w: World, kept: Kept, f: World)
    requires Adjacent(p, q) && Restorable(cfg, p, saved, w, kept, f)
    ensures Restorable(cfg, q, saved, w, kept, f)
  {
  }

  /** How `start` moves from phase to phase. */
  lemma StartPhases(cfg: Config, s: Core, t: Tid, a: StartAction)
    requires ControlInv(s) && StartCan(s, t, a) && DryStart(a)
    ensures
      var s' := StartDo(cfg, s, t, a);
      if IsOpening(s) && IsOpening(s') then
        && s'.lock.value.section.saved == s.lock.value.section.saved
        && (s'.lock == s.lock || Adjacent(s.lock.value.section.phase, s'.lock.value.section.phase))
      else if IsOpening(s') then
        a.StartClaims? && s'.lock == Some(Holder(t, Opening(ToForget, Save(s), CallOf(s, t).callback)))
      else if IsOpening(s) then a.StartSpawns? && OpeningAt(s, t, ToSpawn)
      else true
  {
  }

  lemma DryStartKeepsRollback(cfg: Config, y: System, t: Tid, a: StartAction)
    requires SystemInv(cfg, y) && StartCan(y.core, t, a) && DryStart(a)
    ensures RollbackInv(cfg, StartDo(cfg, y.core, t, a), y.world, y.kept, if a.StartClaims? then y.world else y.first)
  {
    var s, s' := y.core, StartDo(cfg, y.core, t, a);
    StartPhases(cfg, s, t, a);
    if IsOpening(s) && IsOpening(s') && s'.lock != s.lock {
      AdjacentRestorable(cfg, s.lock.value.section.phase, s'.lock.value.section.phase, s.lock.value.section.saved,
                         y.world, y.kept, y.first);
    } else if a.StartClaims? {
      assert !HasWorker(s);
      ClaimIsRestorable(cfg, s, y.world, y.kept);
    }
  }

  lemma DryStartKeepsSystem(cfg: Config, y: System, t: Tid, a: StartAction)
    requires SystemInv(cfg, y) && StartCan(y.core, t, a) && DryStart(a)
    ensures WorldInv(cfg, StartStep(cfg, y, t, a))
  {
    DryStartKeepsRollback(cfg, y, t, a);
    DryStartKeepsView(cfg, y.core, t, a);
    DryStartKeepsHands(cfg, y.core, t, a, y.world.h, y.pushed);
    DryKeepsWorld(cfg, y, StartDo(cfg, y.core, t, a), if a.StartClaims? then y.world else y.first);
  }

  /** A section of `start` or of its rollback: no worker is there to notice. */
  lemma SectionKeepsWorld(cfg: Config, y: System, s': Core, kept: Kept, e: Effect)
    requires SystemInv(cfg, y) && IsOpening(y.core) && SameWorker(y.core, s')
    requires Guarded(cfg, y.world, e) && (e.One? ==> !e.e.Record? && (e.e.Restore? ==> y.world.d.fault == NoFault))
    requires CoreView(s'.shared) == EffectView(CoreView(y.core.shared), e, false)
    requires Perform(cfg, y.world, e).h.handed == y.world.h.handed
    requires RollbackInv(cfg, s', Perform(cfg, y.world, e), kept, y.first)
    ensures WorldInv(cfg, System(s', Perform(cfg, y.world, e), kept, y.first, y.pushed))
  {
    assert !HasWorker(y.core);
    EffectKeepsData(cfg, y.world, e);
    GuardedView(cfg, y.world, e, false);
  }

  lemma WetStartAgrees(cfg: Config, s: Core, t: Tid, a: StartAction)
    requires StartCan(s, t, a) && !DryStart(a)
    ensures CoreView(StartDo(cfg, s, t, a).shared) == EffectView(CoreView(s.shared), StartEffect(a), false)
  {
  }

  lemma ForgetKeepsRollback(cfg: Config, s: Core, t: Tid, w: World, kept: Kept, f: World)
    requires RollbackInv(cfg, s, w, kept, f) && StartCan(s, t, StartForgets)
    ensures Guard(cfg, w, Forget) && Next(cfg, w, Forget).h.handed == w.h.handed
    ensures RollbackInv(cfg, StartDo(cfg, s, t, StartForgets), Next(cfg, w, Forget), Keep(kept, w, StartForgets), f)
  {
    Forgetting(cfg, s.lock.value.section.saved, w, kept, f);
  }

  lemma ForgetKeepsSystem(cfg: Config, y: System, t: Tid)
    requires SystemInv(cfg, y) && StartCan(y.core, t, StartForgets)
    ensures WorldInv(cfg, StartStep(cfg, y, t, StartForgets))
  {
    ForgetKeepsRollback(cfg, y.core, t, y.world, y.kept, y.first);
    WetStartAgrees(cfg, y.core, t, StartForgets);
    StartKeepsWorkers(cfg, y.core, t, StartForgets);
    SectionKeepsWorld(cfg, y, StartDo(cfg, y.core, t, StartForgets), Keep(y.kept, y.world, StartForgets), One(Forget));
  }

  lemma OpenKeepsRollback(cfg: Config, s: Core, t: Tid, w: World, kept: Kept, f: World)
    requires RollbackInv(cfg, s, w, kept, f) && WindowsInv(w) && TailInv(w) && StartCan(s, t, StartOpens)
    ensures Guard(cfg, w, Open) && Next(cfg, w, Open).h.handed == w.h.handed
    ensures RollbackInv(cfg, StartDo(cfg, s, t, StartOpens), Next(cfg, w, Open), Keep(kept, w, StartOpens), f)
  {
    OpeningData(cfg, s.lock.value.section.saved, w, kept, f);
  }

  lemma OpenKeepsSystem(cfg: Config, y: System, t: Tid)
    requires SystemInv(cfg, y) && StartCan(y.core, t, StartOpens)
    ensures WorldInv(cfg, StartStep(cfg, y, t, StartOpens))
  {
    OpenKeepsRollback(cfg, y.core, t, y.world, y.kept, y.first);
    WetStartAgrees(cfg, y.core, t, StartOpens);
    StartKeepsWorkers(cfg, y.core, t, StartOpens);
    SectionKeepsWorld(cfg, y, StartDo(cfg, y.core, t, StartOpens), Keep(y.kept, y.world, StartOpens), One(Open));
  }

  lemma StartKeepsSystem(cfg: Config, y: System, t: Tid, a: StartAction)
    requires SystemInv(cfg, y) && StartCan(y.core, t, a)
    ensures WorldInv(cfg, StartStep(cfg, y, t, a))
  {
    if a.StartForgets? {
      ForgetKeepsSystem(cfg, y, t);
    } else if a.StartOpens? {
      OpenKeepsSystem(cfg, y, t);
    } else {
      DryStartKeepsSystem(cfg, y, t, a);
    }
  }

  /** What the rollback's data section puts back agrees with the saved fields. */
  predicate Backed(d: Shared, saved: Saved, kept: Kept) {
    && kept.data.health.state == saved.state && kept.data.health.configuration.Some? == d.configured
    && kept.data.health.events.reconnects == d.reconnects && kept.data.generation == saved.generation
    && kept.data.deliveredGeneration == saved.delivered
  }

  lemma UndoAgrees(s: Core, t: Tid, a: UndoAction, kept: Kept)
    requires UndoCan(s, t, a) && (a.UndoesData? ==> Backed(s.shared, s.lock.value.section.saved, kept))
    ensures CoreView(UndoDo(s, t, a).shared)
         == EffectView(CoreView(s.shared), UndoEffect(s.lock.value.section.saved, kept, a), false)
  {
    if a.UndoesPublish? {
      LatchAgrees(s.shared, s.lock.value.section.saved.fault, s.lock.value.section.saved.cause);
    }
  }

  function PhaseOf(a: UndoAction): OpenPhase {
    match a
    case UndoesFlags => ToUndoFlags
    case UndoesPace => ToUndoPace
    case UndoesData => ToUndoData
    case UndoesLatch => ToUndoLatch
    case UndoesPublish => ToUndoPublish
  }

  function PhaseAfter(a: UndoAction): OpenPhase {
    match a
    case UndoesFlags => ToUndoPace
    case UndoesPace => ToUndoData
    case UndoesData => ToUndoLatch
    case _ => ToUndoPublish
  }

  lemma UndoPhases(s: Core, t: Tid, a: UndoAction)
    requires UndoCan(s, t, a)
    ensures IsOpening(s) && s.lock.value.section.phase == PhaseOf(a)
    ensures !a.UndoesPublish? ==> UndoDo(s, t, a).lock == Advance(s, PhaseAfter(a)).lock
    ensures UndoDo(s, t, a).active == s.active
    ensures a.UndoesPublish? ==> !IsOpening(UndoDo(s, t, a))
    ensures SameWorker(s, UndoDo(s, t, a))
  {
  }

  lemma {:induction false} UndoKeepsRestorable(cfg: Config, a: UndoAction, saved: Saved, w: World, kept: Kept, f: World)
    requires Restorable(cfg, PhaseOf(a), saved, w, kept, f) && (saved.fault != NoFault ==> saved.state.Faulted?)
    ensures Guarded(cfg, w, UndoEffect(saved, kept, a))
    ensures
      var w' := Perform(cfg, w, UndoEffect(saved, kept, a));
      && (a.UndoesPublish? ==> PutBack(w', f))
      && (!a.UndoesPublish? ==> Restorable(cfg, PhaseAfter(a), saved, w', kept, f))
  {
    match a
    case UndoesFlags => AdjacentRestorable(cfg, ToUndoFlags, ToUndoPace, saved, w, kept, f);
    case UndoesPace => UndoingPace(cfg, saved, w, kept, f);
    case UndoesData => UndoingData(cfg, saved, w, kept, f);
    case UndoesLatch => UndoingLatch(cfg, saved, w, kept, f);
    case UndoesPublish => UndoingPublish(cfg, saved, w, kept, f);
  }

  lemma UndoIsBacked(cfg: Config, d: Shared, saved: Saved, w: World, kept: Kept, f: World)
    requires Restorable(cfg, ToUndoData, saved, w, kept, f) && CoreView(d) == DataView(w)
    ensures Backed(d, saved, kept) && w.d.fault == NoFault
  {
  }

  lemma RestorableHands(cfg: Config, p: OpenPhase, saved: Saved, w: World, kept: Kept, f: World)
    requires Restorable(cfg, p, saved, w, kept, f)
    ensures w.h.handed == f.h.handed
    ensures f.h.paced == f.h.delivered
  {
  }

  lemma UndoKeepsRollback(cfg: Config, s: Core, t: Tid, a: UndoAction, w: World, kept: Kept, f: World)
    requires RollbackInv(cfg, s, w, kept, f) && UndoCan(s, t, a)
    requires var saved := s.lock.value.section.saved; saved.fault != NoFault ==> saved.state.Faulted?
    ensures
      var e := UndoEffect(s.lock.value.section.saved, kept, a);
      && Guarded(cfg, w, e) && Perform(cfg, w, e).h.handed == w.h.handed
      && RollbackInv(cfg, UndoDo(s, t, a), Perform(cfg, w, e), kept, f)
      && (a.UndoesPublish? ==> PutBack(Perform(cfg, w, e), f))
  {
    var saved := s.lock.value.section.saved;
    UndoPhases(s, t, a);
    UndoKeepsRestorable(cfg, a, saved, w, kept, f);
    RestorableHands(cfg, PhaseOf(a), saved, w, kept, f);
    if !a.UndoesPublish? {
      RestorableHands(cfg, PhaseAfter(a), saved, Perform(cfg, w, UndoEffect(saved, kept, a)), kept, f);
    }
  }

  lemma UndoKeepsSystem(cfg: Config, y: System, t: Tid, a: UndoAction)
    requires SystemInv(cfg, y) && UndoCan(y.core, t, a)
    ensures WorldInv(cfg, UndoStep(cfg, y, t, a))
    ensures a.UndoesPublish? ==> PutBack(UndoStep(cfg, y, t, a).world, y.first)
  {
    var s, saved := y.core, y.core.lock.value.section.saved;
    UndoPhases(s, t, a);
    UndoKeepsRollback(cfg, s, t, a, y.world, y.kept, y.first);
    if a.UndoesData? {
      UndoIsBacked(cfg, s.shared, saved, y.world, y.kept, y.first);
    }
    UndoAgrees(s, t, a, y.kept);
    SectionKeepsWorld(cfg, y, UndoDo(s, t, a), y.kept, UndoEffect(saved, y.kept, a));
  }

  /** A step of a caller that leaves the worker's hands alone. */
  lemma LightKeepsWorld(cfg: Config, y: System, s': Core, e: Effect)
    requires SystemInv(cfg, y) && SameWorker(y.core, s') && Guarded(cfg, y.world, e) && LightEffect(y.world, e)
    requires CoreView(s'.shared) == EffectView(CoreView(y.core.shared), e, false)
    requires RollbackInv(cfg, s', Perform(cfg, y.world, e), y.kept, y.first)
    ensures WorldInv(cfg, System(s', Perform(cfg, y.world, e), y.kept, y.first, y.pushed))
  {
    EffectKeepsData(cfg, y.world, e);
    GuardedView(cfg, y.world, e, false);
    LightKeepsHands(cfg, y.world, e);
    SameHands(y.core, s', y.world.h, Perform(cfg, y.world, e).h, y.pushed);
  }

  lemma StopPhases(s: Core, t: Tid, a: StopAction)
    requires ControlInv(s) && StopCan(s, t, a)
    ensures SameWorker(s, StopDo(s, t, a))
    ensures IsOpening(s) ==> StopDo(s, t, a).lock == s.lock && StopEffect(s.shared, a) == Nothing
    ensures IsOpening(s) ==> StopDo(s, t, a).active == s.active
    ensures !IsOpening(s) ==> !IsOpening(StopDo(s, t, a))
    ensures CoreView(StopDo(s, t, a).shared) == EffectView(CoreView(s.shared), StopEffect(s.shared, a), false)
  {
  }

  lemma StopKeepsSystem(cfg: Config, y: System, t: Tid, a: StopAction)
    requires SystemInv(cfg, y) && StopCan(y.core, t, a)
    ensures WorldInv(cfg, StopStep(cfg, y, t, a))
  {
    var e := StopEffect(y.core.shared, a);
    StopPhases(y.core, t, a);
    if !IsOpening(y.core) {
      PaceFollows(cfg, y.world, e);
    }
    LightKeepsWorld(cfg, y, StopDo(y.core, t, a), e);
  }

  predicate QueryLike(s: Core, w: World, e: Effect) {
    match e
    case Nothing => true
    case One(e) => e.Bias? && s.shared.sessionStarted
    case Two(e, f) => e.Tick? && f.ReadHealth? && ClockReads(w, e.now)
  }

  lemma QueryKeepsRollback(cfg: Config, y: System, s': Core, e: Effect)
    requires SystemInv(cfg, y) && s'.lock == y.core.lock && QueryLike(y.core, y.world, e)
    ensures RollbackInv(cfg, s', Perform(cfg, y.world, e), y.kept, y.first)
    ensures Guarded(cfg, y.world, e) && LightEffect(y.world, e)
  {
    if !IsOpening(y.core) {
      PaceFollows(cfg, y.world, e);
    } else {
      assert !HasWorker(y.core);
      var section := y.core.lock.value.section;
      if e.Two? {
        HealthKeeps(cfg, section.phase, section.saved, y.world, y.kept, y.first, e.first.now);
      }
    }
  }

  lemma QueryEffects(s: Core, t: Tid, a: QueryAction, w: World)
    requires QueryCan(s, t, a) && (a.ReadsHealth? ==> ClockReads(w, a.now))
    ensures QueryLike(s, w, QueryEffect(s, a)) && QueryDo(s, t, a).lock == s.lock
    ensures CoreView(QueryDo(s, t, a).shared) == CoreView(s.shared)
  {
  }

  lemma QueryLikeView(s: Core, w: World, e: Effect)
    requires QueryLike(s, w, e)
    ensures EffectView(CoreView(s.shared), e, false) == CoreView(s.shared)
  {
  }

  lemma QueryKeepsWorkers(s: Core, t: Tid, a: QueryAction)
    requires QueryCan(s, t, a)
    ensures SameWorker(s, QueryDo(s, t, a))
  {
  }

  lemma QueryKeepsSystem(cfg: Config, y: System, t: Tid, a: QueryAction)
    requires SystemInv(cfg, y) && QueryCan(y.core, t, a) && (a.ReadsHealth? ==> ClockReads(y.world, a.now))
    ensures WorldInv(cfg, QueryStep(cfg, y, t, a))
  {
    var e, s' := QueryEffect(y.core, a), QueryDo(y.core, t, a);
    QueryEffects(y.core, t, a, y.world);
    QueryLikeView(y.core, y.world, e);
    QueryKeepsWorkers(y.core, t, a);
    QueryKeepsRollback(cfg, y, s', e);
    LightKeepsWorld(cfg, y, s', e);
  }

  // ---------------------------------------------------------------------
  // Every reachable state
  // ---------------------------------------------------------------------

  lemma SystemStarts(cfg: Config)
    ensures SystemInv(cfg, SYSTEM_INITIAL)
  {
    ControlStarts();
    RunStarts(cfg);
    AttemptStarts();
    WireStarts();
    StreamStarts(cfg);
  }

  lemma SystemKept(cfg: Config, y: System, t: Tid, a: Action, c: Choice)
    requires ValidConfig(cfg) && SystemInv(cfg, y) && Enabled(cfg, y, t, a, c)
    ensures SystemInv(cfg, Step(cfg, y, t, a, c))
  {
    CoreKept(cfg, y.core, t, a);
    match a
    case Work(x) => WorkKeepsSystem(cfg, y, t, x, c);
    case Start(x) => StartKeepsSystem(cfg, y, t, x);
    case Undo(x) => UndoKeepsSystem(cfg, y, t, x);
    case Stop(x) => StopKeepsSystem(cfg, y, t, x);
    case Query(x) => QueryKeepsSystem(cfg, y, t, x);
  }

  datatype Move = Move(t: Tid, a: Action, c: Choice)

  ghost predicate Leads(cfg: Config, y: System, m: Move, y': System) {
    Enabled(cfg, y, m.t, m.a, m.c) && y' == Step(cfg, y, m.t, m.a, m.c)
  }

  /** The states a client can be in after the given moves of its threads. */
  ghost predicate Reaches(cfg: Config, moves: seq<Move>, y: System) {
    if moves == [] then y == SYSTEM_INITIAL
    else
      var m := moves[|moves| - 1];
      exists p :: Reaches(cfg, moves[..|moves| - 1], p) && Leads(cfg, p, m, y)
  }

  /** In every state the client can reach, however its threads interleave, the
      whole invariant holds. */
  lemma {:induction false} EveryReachableState(cfg: Config, moves: seq<Move>, y: System)
    requires ValidConfig(cfg) && Reaches(cfg, moves, y)
    ensures SystemInv(cfg, y)
  {
    if moves == [] {
      SystemStarts(cfg);
    } else {
      var m := moves[|moves| - 1];
      var p :| Reaches(cfg, moves[..|moves| - 1], p) && Leads(cfg, p, m, y);
      EveryReachableState(cfg, moves[..|moves| - 1], p);
      SystemKept(cfg, p, m.t, m.a, m.c);
    }
  }

  /** Said plainly: after any moves of any threads the counters balance up to the
      one sample in its callback and each counts the records it is named for, samples have been handed out in strictly
      increasing order, the revision counts the calibration changes, and outside
      `start` the completed deliveries of the run keep the limiter's distance. */
  lemma EveryStateBalances(cfg: Config, moves: seq<Move>, y: System)
    requires ValidConfig(cfg) && Reaches(cfg, moves, y)
    ensures
      var health, h := y.world.d.health, y.world.h;
      && health.records.received == health.events.delivered + health.records.rateLimited + health.events.callbackErrors
                                    + CountWithheld(cfg, h.entries) + (if h.pending.Some? then 1 else 0)
      && (h.pending.Some? <==> y.core.shared.pending)
      && (forall f :: Counter(health.records, f) == Tally(h.entries, f))
      && InOrder(h.handed)
      && (health.configuration.Some? ==> health.configuration.value.revision == 1 + health.events.calibrationChanges)
      && (!IsOpening(y.core) ==> Paced(cfg, h.delivered, y.world.d.lastDeliveryAt))
  {
    EveryReachableState(cfg, moves, y);
  }

  lemma {:induction false} OneMoreMove(cfg: Config, moves: seq<Move>, y: System, m: Move, y': System)
    requires Reaches(cfg, moves, y) && Leads(cfg, y, m, y')
    ensures Reaches(cfg, moves + [m], y')
  {
    var longer := moves + [m];
    assert longer[..|longer| - 1] == moves && longer[|longer| - 1] == m;
    assert Reaches(cfg, longer[..|longer| - 1], y) && Leads(cfg, y, longer[|longer| - 1], y');
  }

  /** While a `start` is under way, what it saved stands, and nobody touches
      `active_worker_id_`. */
  predicate SavedStands(s: Core, s': Core) {
    IsOpening(s) && IsOpening(s') ==>
      s'.lock.value.section.saved == s.lock.value.section.saved && s'.active == s.active
  }

  lemma StartKeepsSaved(cfg: Config, s: Core, t: Tid, a: StartAction)
    requires ControlInv(s) && StartCan(s, t, a)
    ensures SavedStands(s, StartDo(cfg, s, t, a)) && (IsOpening(s) ==> !a.StartClaims?)
  {
  }

  /** From the moment a `start` is admitted until it ends, no step of any thread
      touches its snapshot of the client. */
  lemma SnapshotStands(cfg: Config, y: System, t: Tid, a: Action, c: Choice)
    requires SystemInv(cfg, y) && Can(y.core, t, a) && IsOpening(y.core)
    ensures SavedStands(y.core, Do(cfg, y.core, t, a)) && Step(cfg, y, t, a, c).first == y.first
  {
    match a
    case Work(x) => assert false;
    case Start(x) => StartKeepsSaved(cfg, y.core, t, x);
    case Undo(x) => UndoPhases(y.core, t, x);
    case Stop(x) => StopPhases(y.core, t, x);
    case Query(x) => QueryShowsLock(y.core, t, x);
  }

  lemma QueryShowsLock(s: Core, t: Tid, a: QueryAction)
    requires QueryCan(s, t, a)
    ensures QueryDo(s, t, a).lock == s.lock && QueryDo(s, t, a).active == s.active
  {
  }

  lemma FlagsArePutBack(s: Core, t: Tid)
    requires ControlInv(s) && FlagsOk(s) && UndoCan(s, t, UndoesPublish)
    ensures
      var s', saved := UndoDo(s, t, UndoesPublish), s.lock.value.section.saved;
      && CallOf(s', t).Idle? && s'.lock.None? && s'.handle.None? && s'.active == s.active
      && s'.stopping == saved.stopping && s'.shared.exited == saved.exited && s'.callback == saved.callback
  {
  }

  lemma DataArePutBack(w: World, f: World)
    requires WindowsInv(w) && PutBack(w, f)
    ensures TimesOk(w.d, f.h.received, f.h.delivered, w.h.clock)
  {
  }

  /** A `start` that fails leaves no trace: flags, callback, latch, health,
      counters, generations, trackers and the limiter's memory are as they were
      when it was admitted, and both windows still tell the true rates. */
  lemma FailedStartLeavesNoTrace(cfg: Config, y: System, t: Tid)
    requires SystemInv(cfg, y) && UndoCan(y.core, t, UndoesPublish)
    ensures
      var s, saved := UndoDo(y.core, t, UndoesPublish), y.core.lock.value.section.saved;
      && CallOf(s, t).Idle? && s.lock.None? && s.handle.None? && s.active == y.core.active
      && s.stopping == saved.stopping && s.shared.exited == saved.exited && s.callback == saved.callback
    ensures
      var w, first := UndoStep(cfg, y, t, UndoesPublish).world, y.first;
      && w.d == first.d.(receiveTimes := w.d.receiveTimes, deliveryTimes := w.d.deliveryTimes)
      && w.h == first.h.(clock := w.h.clock)
      && TimesOk(w.d, first.h.received, first.h.delivered, w.h.clock)
  {
    UndoKeepsSystem(cfg, y, t, UndoesPublish);
    FlagsArePutBack(y.core, t);
    DataArePutBack(UndoStep(cfg, y, t, UndoesPublish).world, y.first);
  }
}
