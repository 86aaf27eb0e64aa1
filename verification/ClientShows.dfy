/**
 What the client shows and when it begins anew: the latest sample, the last record,
 a fault, malformed storms, and the first record after a session or a bias begins.
 */
module ClientShows {
  import opened Sequence
  import opened ClientData
  import opened StreamHistory
  import opened ClientLifecycle
  import opened ClientControl
  import opened ClientRuns
  import opened ClientWorld
  import opened ClientSystem
  import opened ClientTheorems

  // ---------------------------------------------------------------------
  // The next record is a first one
  // ---------------------------------------------------------------------

  predicate Forgotten(w: World) {
    !w.d.rdt.hasLast
  }

  /** A session has begun, or a bias has been sent and followed by StartRealtime. */
  predicate BeginsAnew(s: Core, a: Action) {
    a == Work(ResetTrackers) || (a == Query(Biases(true, true)) && MayBias(s))
  }

  lemma BeginningForgets(cfg: Config, y: System, t: Tid, a: Action, c: Choice)
    requires Can(y.core, t, a) && BeginsAnew(y.core, a)
    ensures Forgotten(Step(cfg, y, t, a, c).world)
  {
  }

  lemma EventKeepsForgotten(cfg: Config, w: World, e: Event)
    requires Forgotten(w) && !e.Record?
    ensures Forgotten(Next(cfg, w, e))
  {
  }

  lemma EffectKeepsForgotten(cfg: Config, w: World, e: Effect)
    requires Forgotten(w) && (e.One? ==> !e.e.Record?) && (e.Two? ==> !e.first.Record? && !e.second.Record?)
    ensures Forgotten(Perform(cfg, w, e))
  {
    match e
    case Nothing =>
    case One(x) => EventKeepsForgotten(cfg, w, x);
    case Two(x, z) =>
      EventKeepsForgotten(cfg, w, x);
      EventKeepsForgotten(cfg, Next(cfg, w, x), z);
  }

  predicate IsRecord(a: Action) {
    a.Work? && a.work.HandlesRecord?
  }

  lemma WorkHasNoRecord(cfg: Config, d: Shared, stopping: bool, at: Point, a: WorkAction, c: Choice)
    requires WorkerAt(at, a) && !a.HandlesRecord?
    ensures
      var e := WorkEffect(cfg, d, stopping, at, a, c);
      (e.One? ==> !e.e.Record?) && (e.Two? ==> !e.first.Record? && !e.second.Record?)
  {
  }

  lemma StepKeepsForgotten(cfg: Config, y: System, t: Tid, a: Action, c: Choice)
    requires Can(y.core, t, a) && Forgotten(y.world) && !IsRecord(a)
    ensures Forgotten(Step(cfg, y, t, a, c).world)
  {
    match a
    case Work(x) =>
      var s, at := y.core, WorkerOf(y.core, t).at;
      WorkHasNoRecord(cfg, s.shared, s.stopping, at, x, c);
      EffectKeepsForgotten(cfg, y.world, WorkEffect(cfg, s.shared, s.stopping, at, x, c));
    case Start(x) => EffectKeepsForgotten(cfg, y.world, StartEffect(x));
    case Undo(x) => EffectKeepsForgotten(cfg, y.world, UndoEffect(y.core.lock.value.section.saved, y.kept, x));
    case Stop(x) => EffectKeepsForgotten(cfg, y.world, StopEffect(y.core.shared, x));
    case Query(x) => EffectKeepsForgotten(cfg, y.world, QueryEffect(y.core, x));
  }

  /** From `p` the moves lead to `y`, and no record is handled on the way. */
  ghost predicate WithoutRecord(cfg: Config, p: System, moves: seq<Move>, y: System) {
    if moves == [] then y == p
    else
      var m := moves[|moves| - 1];
      exists q :: WithoutRecord(cfg, p, moves[..|moves| - 1], q) && Leads(cfg, q, m, y) && !IsRecord(m.a)
  }

  lemma {:induction false} ForgottenUntilARecord(cfg: Config, p: System, moves: seq<Move>, y: System)
    requires Forgotten(p.world) && WithoutRecord(cfg, p, moves, y)
    ensures Forgotten(y.world)
  {
    if moves != [] {
      var m := moves[|moves| - 1];
      var q :| WithoutRecord(cfg, p, moves[..|moves| - 1], q) && Leads(cfg, q, m, y) && !IsRecord(m.a);
      ForgottenUntilARecord(cfg, p, moves[..|moves| - 1], q);
      StepKeepsForgotten(cfg, q, m.t, m.a, m.c);
    }
  }

  /** After a session has begun, or a bias has been sent, the next record is classified
      as a first one, whatever the other threads do in between. */
  lemma NextRecordIsFirst(
    cfg: Config, p: System, t: Tid, a: Action, c: Choice, moves: seq<Move>, y: System, r: RawRecord)
    requires Can(p.core, t, a) && BeginsAnew(p.core, a)
    requires WithoutRecord(cfg, Step(cfg, p, t, a, c), moves, y)
    ensures RdtObserve(y.world.d.rdt, r.rdt).1 == Observation(First, 0)
  {
    BeginningForgets(cfg, p, t, a, c);
    ForgottenUntilARecord(cfg, Step(cfg, p, t, a, c), moves, y);
  }

  // ---------------------------------------------------------------------
  // Malformed storms
  // ---------------------------------------------------------------------

  /** What a malformed datagram does: it is counted, and ends the session in a storm if
      it is at least the tenth in a row. */
  predicate MalformedDone(w: World, w': World, p: Point) {
    && w'.h.tail.streak == w.h.tail.streak + 1
    && (if w.h.tail.streak + 1 >= 10 then p.AtSessionEnd? && p.result == MalformedStorm else p.AtReceive?)
  }

  lemma MalformedIsDone(cfg: Config, d: Shared, at: Point, w: World, storm: bool, c: Choice)
    requires WorkerAt(at, GetsMalformed(storm)) && WorkFits(cfg, w, at, GetsMalformed(storm), c) && TailInv(w)
    ensures
      MalformedDone(w, Perform(cfg, w, WorkEffect(cfg, d, false, at, GetsMalformed(storm), c)),
                    NextPoint(cfg, d, false, at, GetsMalformed(storm)))
  {
  }

  /** In every run, a malformed datagram ends the session, if nobody has called `stop`,
      exactly when it is at least the tenth in a row of the run. */
  lemma StormAtTen(cfg: Config, moves: seq<Move>, y: System, t: Tid, storm: bool, c: Choice)
    requires InSomeRun(cfg, moves, y) && Enabled(cfg, y, t, Work(GetsMalformed(storm)), c) && !y.core.stopping
    ensures
      MalformedDone(y.world, WorkStep(cfg, y, t, GetsMalformed(storm), c).world,
                    NextPoint(cfg, y.core.shared, false, WorkerOf(y.core, t).at, GetsMalformed(storm)))
  {
    EveryReachableState(cfg, moves, y);
    MalformedIsDone(cfg, y.core.shared, WorkerOf(y.core, t).at, y.world, storm, c);
  }

  // ---------------------------------------------------------------------
  // Snapshots
  // ---------------------------------------------------------------------

  /** The latest sample is the last of the run's completed deliveries. */
  ghost predicate LatestIs(w: World) {
    var samples, delivered := w.h.tail.samples, w.h.delivered;
    && w.d.latest == (if samples == [] then None else Some(samples[|samples| - 1]))
    && |samples| == |delivered| && (forall i :: 0 <= i < |samples| ==> samples[i].receivedAt == delivered[i])
  }

  lemma TailMeans(w: World)
    requires TailInv(w)
    ensures LatestIs(w)
  {
  }

  lemma LatestInEveryRun(cfg: Config, moves: seq<Move>, y: System)
    requires InSomeRun(cfg, moves, y)
    ensures LatestIs(y.world)
  {
    EveryReachableState(cfg, moves, y);
    TailMeans(y.world);
  }

  /** In every run a snapshot of health shows a latched fault, with its code, in the
      state Faulted and else the client's own state; and the record last counted. */
  lemma SnapshotsInEveryRun(cfg: Config, moves: seq<Move>, y: System)
    requires InSomeRun(cfg, moves, y)
    ensures
      var snapshot := Report(y.world.d);
      && snapshot.faultCode == y.core.shared.fault
      && snapshot.state == (if Faulty(y.core.shared) then Faulted else y.core.shared.state)
      && snapshot.configuration == y.world.d.health.configuration
    ensures
      var last, entries := Report(y.world.d).last, y.world.h.entries;
      entries != [] ==>
        var e := entries[|entries| - 1];
        && last.rdt == Some(e.raw.rdt) && last.ft == Some(e.raw.ft) && last.status == e.raw.status
        && last.progress == Some(e.ft)
  {
    EveryReachableState(cfg, moves, y);
    assert CoreView(y.core.shared) == DataView(y.world) && LastInv(y.world);
  }
}
