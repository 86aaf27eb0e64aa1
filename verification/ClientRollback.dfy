/**
 A `start` whose thread cannot be created puts everything back.

 The rollback runs in several sections while other threads go on reading health,
 so the invariant says at every phase what is already restored and where the rest
 is kept.
 */
module ClientRollback {
  import opened ClientData
  import opened StreamHistory
  import opened ClientLifecycle
  import opened ClientControl
  import opened ClientRuns
  import opened ClientWorld

  // ---------------------------------------------------------------------
  // Phase by phase
  // ---------------------------------------------------------------------

  /** Before the data section of `start`. */
  predicate Early(p: OpenPhase) {
    p.ToForget? || p.ToOpen?
  }

  /** Between the data section of `start` and that of the rollback. */
  predicate Middle(p: OpenPhase) {
    p.ToSetFlags? || p.ToSpawn? || p.ToUndoFlags? || p.ToUndoPace? || p.ToUndoData?
  }

  /** The rate limiter's memory is as it was. */
  predicate PaceStands(p: OpenPhase) {
    p.ToForget? || p.ToUndoData? || p.ToUndoLatch? || p.ToUndoPublish?
  }

  /** Equal but for the latch, the limiter's memory and expired window entries. */
  predicate SameData(d: Data, f: Data) {
    d == f.(receiveTimes := d.receiveTimes, deliveryTimes := d.deliveryTimes, lastDeliveryAt := d.lastDeliveryAt,
            fault := d.fault)
  }

  predicate SameHistory(h: History, f: History) {
    h == f.(clock := h.clock, paced := h.paced, received := h.received, delivered := h.delivered, tail := h.tail)
  }

  /** What `start` has cleared was never part of the counters. */
  predicate Cleared(w: World, f: World) {
    && w.d.rdt == f.d.rdt && w.d.ft == f.d.ft
    && w.d.health.records == f.d.health.records && w.d.health.events == f.d.health.events
    && w.d.health.configuration == f.d.health.configuration && w.d.health.last == f.d.health.last
    && w.h.received == [] && w.h.delivered == []
  }

  ghost predicate Stored(kept: Kept, f: World, clock: real) {
    && SameData(kept.data, f.d) && kept.received == f.h.received && kept.delivered == f.h.delivered
    && TimesOk(kept.data, kept.received, kept.delivered, clock)
    && kept.tail == f.h.tail && TailOk(kept.data, kept.delivered, kept.tail)
  }

  predicate PaceKeptBy(p: OpenPhase, w: World, kept: Kept, f: World) {
    if PaceStands(p) then w.d.lastDeliveryAt == f.d.lastDeliveryAt && w.h.paced == f.h.paced
    else kept.at == f.d.lastDeliveryAt && kept.paced == f.h.paced && w.h.paced == []
  }

  ghost predicate DataKeptBy(p: OpenPhase, w: World, kept: Kept, f: World) {
    if Middle(p) then Cleared(w, f) && Stored(kept, f, w.h.clock)
    else
      && SameData(w.d, f.d) && w.h.received == f.h.received && w.h.delivered == f.h.delivered
      && w.h.tail == f.h.tail
  }

  predicate FaultShown(d: Data) {
    d.fault != NoFault ==> d.health.faultCode == d.fault
  }

  /** What was true when the `start` was admitted. */
  ghost predicate Admitted(cfg: Config, saved: Saved, f: World) {
    && Paced(cfg, f.h.paced, f.d.lastDeliveryAt) && f.h.paced == f.h.delivered
    && saved.fault == f.d.fault && saved.state == f.d.health.state && saved.generation == f.d.generation
    && saved.delivered == f.d.deliveredGeneration && FaultShown(f.d)
  }

  ghost predicate Restorable(cfg: Config, p: OpenPhase, saved: Saved, w: World, kept: Kept, f: World) {
    && Admitted(cfg, saved, f)
    && SameHistory(w.h, f.h) && w.h.pending.None?
    && PaceKeptBy(p, w, kept, f) && DataKeptBy(p, w, kept, f)
    && (if Early(p) then w.d.fault == f.d.fault else w.d.fault == NoFault && kept.data.health == f.d.health)
  }

  // ---------------------------------------------------------------------
  // Each section
  // ---------------------------------------------------------------------

  lemma Forgetting(cfg: Config, saved: Saved, w: World, kept: Kept, f: World)
    requires Restorable(cfg, ToForget, saved, w, kept, f)
    ensures Guard(cfg, w, Forget)
    ensures Restorable(cfg, ToOpen, saved, Next(cfg, w, Forget), kept.(at := w.d.lastDeliveryAt, paced := w.h.paced), f)
  {
  }

  lemma OpeningData(cfg: Config, saved: Saved, w: World, kept: Kept, f: World)
    requires Restorable(cfg, ToOpen, saved, w, kept, f) && WindowsInv(w) && TailInv(w)
    ensures Guard(cfg, w, Open)
    ensures Restorable(cfg, ToSetFlags, saved, Next(cfg, w, Open),
                       kept.(data := w.d, received := w.h.received, delivered := w.h.delivered, tail := w.h.tail), f)
  {
  }

  lemma UndoingPace(cfg: Config, saved: Saved, w: World, kept: Kept, f: World)
    requires Restorable(cfg, ToUndoPace, saved, w, kept, f)
    ensures Guard(cfg, w, RestorePace(kept.at, kept.paced))
    ensures Restorable(cfg, ToUndoData, saved, Next(cfg, w, RestorePace(kept.at, kept.paced)), kept, f)
  {
  }

  lemma UndoingData(cfg: Config, saved: Saved, w: World, kept: Kept, f: World)
    requires Restorable(cfg, ToUndoData, saved, w, kept, f)
    ensures Guard(cfg, w, Restore(kept.data, kept.received, kept.delivered, kept.tail))
    ensures Restorable(cfg, ToUndoLatch, saved,
                       Next(cfg, w, Restore(kept.data, kept.received, kept.delivered, kept.tail)), kept, f)
  {
  }

  lemma UndoingLatch(cfg: Config, saved: Saved, w: World, kept: Kept, f: World)
    requires Restorable(cfg, ToUndoLatch, saved, w, kept, f)
    ensures Restorable(cfg, ToUndoPublish, saved, Next(cfg, w, ResetLatch), kept, f)
  {
  }

  /** Nothing but the clock has moved and nothing but expired window entries is
      gone. */
  predicate PutBack(w: World, f: World) {
    && w.d == f.d.(receiveTimes := w.d.receiveTimes, deliveryTimes := w.d.deliveryTimes)
    && w.h == f.h.(clock := w.h.clock)
  }

  lemma UndoingPublish(cfg: Config, saved: Saved, w: World, kept: Kept, f: World)
    requires Restorable(cfg, ToUndoPublish, saved, w, kept, f)
    requires saved.fault != NoFault ==> saved.state.Faulted?
    ensures PutBack(Perform(cfg, w, UndoEffect(saved, kept, UndoesPublish)), f)
  {
  }

  /** Another thread reads health in the middle of it. */
  lemma HealthKeeps(cfg: Config, p: OpenPhase, saved: Saved, w: World, kept: Kept, f: World, now: real)
    requires Restorable(cfg, p, saved, w, kept, f) && ClockReads(w, now)
    ensures Restorable(cfg, p, saved, Perform(cfg, w, Two(Tick(now), ReadHealth)), kept, f)
  {
    if Middle(p) {
      WindowAges(kept.data.receiveTimes, kept.received, w.h.clock, now);
      WindowAges(kept.data.deliveryTimes, kept.delivered, w.h.clock, now);
    }
  }

  // ---------------------------------------------------------------------
  // The latch is shown
  // ---------------------------------------------------------------------

  lemma FaultShownKept(cfg: Config, w: World, e: Event)
    requires FaultShown(w.d) && ScaleInv(w) && (e.Restore? ==> w.d.fault == NoFault)
    ensures FaultShown(Next(cfg, w, e).d)
  {
    if e.Record? && w.d.health.configuration.Some? {
      RecordRelates(cfg, w, e.r, e.at);
    }
  }

  lemma PaceIsDelivery(cfg: Config, w: World, e: Event)
    requires w.h.paced == w.h.delivered && ScaleInv(w) && !e.Forget? && !e.Open? && !e.RestorePace? && !e.Restore?
    ensures Next(cfg, w, e).h.paced == Next(cfg, w, e).h.delivered
  {
    if e.Record? && w.d.health.configuration.Some? {
      RecordRelates(cfg, w, e.r, e.at);
    }
  }
}
