/**
 The worker and the data: every critical section it performs has its assumptions
 met, both descriptions of the client move alike, and the sample it hands out is
 the one the data calls for.
 */
module ClientHands {
  import opened ClientData
  import opened StreamHistory
  import opened ClientLifecycle
  import opened ClientRuns
  import opened ClientWorld

  // ---------------------------------------------------------------------
  // The worker's hands
  // ---------------------------------------------------------------------

  /** What the worker at this point holds: a record read from the clock after all
      others of its run, or the sample handed out last. */
  ghost predicate PointOk(at: Point, h: History, pushed: nat) {
    && pushed <= |h.handed|
    && (at.AtRecord? ==> NEVER < at.at <= h.clock && AllAtMost(h.received, at.at))
    && (at.AtCallback? || at.AtReturned? ==> h.pending == Some(at.sample))
    && (at.AtCallback? ==> pushed < |h.handed| && h.handed[|h.handed| - 1].sample == at.sample)
  }

  predicate Deliver(a: WorkAction) {
    a.HandlesRecord? && a.verdict.deliver
  }

  lemma WorkGuarded(cfg: Config, d: Shared, stopping: bool, at: Point, a: WorkAction, c: Choice, w: World, pushed: nat)
    requires WorkerAt(at, a) && StreamOk(d, at) && CoreView(d) == DataView(w) && PointOk(at, w.h, pushed)
    requires WorkFits(cfg, w, at, a, c)
    ensures Guarded(cfg, w, WorkEffect(cfg, d, stopping, at, a, c))
  {
  }

  /** Steps of the worker that only move it. */
  predicate Silent(a: WorkAction) {
    || a.LoopCheck? || a.CheckStop? || a.DiscoveryFails? || a.Throws? || a.ConnectFails? || a.StartStream?
    || a.ResolveFailure? || a.TimesOut? || a.ReceiveThrows? || a.CallbackReturns? || a.CallbackThrows?
    || a.ClosesSession? || a.Wakes? || a.ClosesLast? || a.MarksExited?
  }

  lemma SilentAgrees(cfg: Config, d: Shared, stopping: bool, at: Point, a: WorkAction, c: Choice)
    requires WorkerAt(at, a) && Silent(a)
    ensures WorkEffect(cfg, d, stopping, at, a, c) == Nothing
    ensures CoreView(NextShared(cfg, d, stopping, at, a)) == CoreView(d)
  {
  }

  lemma LatchAgrees(d: Shared, code: FaultCode, cause: Cause)
    ensures CoreView(Latch(d, code, cause)) == PublishView(CoreView(d), code)
  {
  }

  lemma DecisionAgrees(cfg: Config, d: Shared, stopping: bool, at: Point, c: Choice)
    requires WorkerAt(at, DecidesNext)
    ensures CoreView(NextShared(cfg, d, stopping, at, DecidesNext))
         == EffectView(CoreView(d), WorkEffect(cfg, d, stopping, at, DecidesNext, c), false)
  {
    LatchAgrees(d, FaultFor(at.result), FromOutcome(at.result));
  }

  /** Both sides see the worker's step alike. */
  predicate Agrees(cfg: Config, d: Shared, stopping: bool, at: Point, a: WorkAction, c: Choice)
    requires WorkerAt(at, a)
  {
    CoreView(NextShared(cfg, d, stopping, at, a))
      == EffectView(CoreView(d), WorkEffect(cfg, d, stopping, at, a, c), Deliver(a))
  }

  predicate EndsRun(a: WorkAction) {
    a.Catches? || a.Ends?
  }

  lemma EndAgrees(cfg: Config, d: Shared, stopping: bool, at: Point, a: WorkAction, c: Choice)
    requires WorkerAt(at, a) && EndsRun(a)
    ensures Agrees(cfg, d, stopping, at, a, c)
  {
    LatchAgrees(d, SocketFault, FromException);
  }

  predicate Delivering(a: WorkAction) {
    a.HandlesRecord? || a.CompletesDelivery? || a.RecordsError?
  }

  lemma DeliveryAgrees(cfg: Config, d: Shared, stopping: bool, at: Point, a: WorkAction, c: Choice)
    requires WorkerAt(at, a) && StreamOk(d, at) && Delivering(a)
    ensures Agrees(cfg, d, stopping, at, a, c)
  {
  }

  predicate Connects(a: WorkAction) {
    a.SetConnecting? || a.Configured? || a.ResetTrackers? || a.CountsTimeout? || a.GetsMalformed? || a.GetsRecord?
  }

  lemma ConnectingAgrees(cfg: Config, d: Shared, stopping: bool, at: Point, a: WorkAction, c: Choice)
    requires WorkerAt(at, a) && Connects(a)
    ensures Agrees(cfg, d, stopping, at, a, c)
  {
  }

  lemma WorkAgrees(cfg: Config, d: Shared, stopping: bool, at: Point, a: WorkAction, c: Choice)
    requires WorkerAt(at, a) && StreamOk(d, at)
    ensures Agrees(cfg, d, stopping, at, a, c)
  {
    if Delivering(a) {
      DeliveryAgrees(cfg, d, stopping, at, a, c);
    } else if Connects(a) {
      ConnectingAgrees(cfg, d, stopping, at, a, c);
    } else if EndsRun(a) {
      EndAgrees(cfg, d, stopping, at, a, c);
    } else if a.DecidesNext? {
      DecisionAgrees(cfg, d, stopping, at, c);
    } else {
      SilentAgrees(cfg, d, stopping, at, a, c);
    }
  }

  lemma RecordInHand(cfg: Config, w: World, r: RawRecord, at: real, verdict: Verdict, sample: Sample)
    requires Guard(cfg, w, Event.Record(r, at)) && ScaleInv(w) && Judged(cfg, w, r, at, verdict, sample)
    ensures Delivers(cfg, w, r, at) == verdict.deliver
    ensures
      var h := Next(cfg, w, Event.Record(r, at)).h;
      && |w.h.handed| <= |h.handed|
      && (verdict.deliver ==>
            && h.pending == Some(sample) && |h.handed| == |w.h.handed| + 1 && h.handed[|w.h.handed|].sample == sample)
  {
    RecordRelates(cfg, w, r, at);
  }

  /** What the worker holds is not touched. */
  ghost predicate HandsOff(h: History, h': History) {
    && h'.handed == h.handed && h'.pending == h.pending && h'.received == h.received && h'.clock >= h.clock
  }

  function PushedAfter(h: History, pushed: nat, a: WorkAction): nat {
    if a.CallbackReturns? then |h.handed| else pushed
  }

  /** Where the worker may be holding something after a step. */
  lemma NextHands(cfg: Config, d: Shared, stopping: bool, at: Point, a: WorkAction)
    requires WorkerAt(at, a)
    ensures
      var p := NextPoint(cfg, d, stopping, at, a);
      && (p.AtRecord? ==> a.GetsRecord? && !stopping && p.at == a.now)
      && (p.AtCallback? ==> Deliver(a) && p.sample == a.sample)
      && (p.AtReturned? ==> a.CallbackReturns? && p.sample == at.sample)
  {
  }

  /** Events that leave the worker's hands alone. */
  predicate Light(w: World, e: Event) {
    && !e.Record? && !e.CallbackReturned? && !e.CallbackThrew? && !e.Open? && !e.Restore?
    && (e.Tick? ==> ClockReads(w, e.now))
  }

  lemma LightEvent(cfg: Config, w: World, e: Event)
    requires Light(w, e)
    ensures HandsOff(w.h, Next(cfg, w, e).h) && (e.Tick? ==> Next(cfg, w, e).h.clock == e.now)
  {
  }

  predicate LightEffect(w: World, e: Effect) {
    match e
    case Nothing => true
    case One(e) => Light(w, e)
    case Two(e, f) => e.Tick? && Light(w, e) && (f.ReadHealth? || f.WellFormed?)
  }

  lemma LightKeepsHands(cfg: Config, w: World, e: Effect)
    requires LightEffect(w, e)
    ensures HandsOff(w.h, Perform(cfg, w, e).h)
    ensures e.Two? ==> Perform(cfg, w, e).h.clock == e.first.now
  {
    match e
    case Nothing =>
    case One(e) => LightEvent(cfg, w, e);
    case Two(e, f) =>
      LightEvent(cfg, w, e);
      LightEvent(cfg, Next(cfg, w, e), f);
  }

  lemma MostWorkIsLight(cfg: Config, d: Shared, stopping: bool, at: Point, a: WorkAction, c: Choice, w: World)
    requires WorkerAt(at, a) && !Delivering(a) && WorkFits(cfg, w, at, a, c)
    ensures
      var e := WorkEffect(cfg, d, stopping, at, a, c);
      LightEffect(w, e) && (a.GetsRecord? && !stopping ==> e == Two(Tick(a.now), WellFormed))
  {
  }

  lemma LightKeepsPoint(at: Point, a: WorkAction, p: Point, h: History, h': History, pushed: nat)
    requires WorkerAt(at, a) && PointOk(at, h, pushed) && HandsOff(h, h')
    requires p.AtRecord? ==> NEVER < p.at == h'.clock && AllAtMost(h.received, h.clock)
    requires !p.AtCallback? && (p.AtReturned? ==> a.CallbackReturns? && p.sample == at.sample)
    ensures PointOk(p, h', PushedAfter(h, pushed, a))
  {
  }

  lemma DeliveryEffect(cfg: Config, d: Shared, stopping: bool, at: Point, a: WorkAction, c: Choice)
    requires WorkerAt(at, a) && Delivering(a)
    ensures
      var e := WorkEffect(cfg, d, stopping, at, a, c);
      && e.One?
      && (if a.HandlesRecord? then e.e == Event.Record(at.r, at.at) else e.e.CallbackReturned? || e.e.CallbackThrew?)
  {
  }

  lemma CompletionKeepsHanded(cfg: Config, w: World, e: Event)
    requires e.CallbackReturned? || e.CallbackThrew?
    ensures Next(cfg, w, e).h.handed == w.h.handed
  {
  }

  lemma DeliveryKeepsPoint(cfg: Config, w: World, e: Event, p: Point, a: WorkAction, pushed: nat)
    requires pushed <= |w.h.handed| && ScaleInv(w) && !p.AtRecord? && !p.AtReturned?
    requires p.AtCallback? ==> Deliver(a) && p.sample == a.sample
    requires if a.HandlesRecord? then e.Record? && Guard(cfg, w, e) && Judged(cfg, w, e.r, e.at, a.verdict, a.sample)
             else e.CallbackReturned? || e.CallbackThrew?
    ensures PointOk(p, Next(cfg, w, e).h, pushed)
  {
    if a.HandlesRecord? {
      RecordInHand(cfg, w, e.r, e.at, a.verdict, a.sample);
    } else {
      CompletionKeepsHanded(cfg, w, e);
    }
  }

  ghost predicate Working(cfg: Config, d: Shared, at: Point, a: WorkAction, c: Choice, w: World, pushed: nat) {
    && WorkerAt(at, a) && StreamOk(d, at) && CoreView(d) == DataView(w) && PointOk(at, w.h, pushed)
    && WorkFits(cfg, w, at, a, c) && ScaleInv(w) && AllAtMost(w.h.received, w.h.clock)
  }

  lemma WorkKeepsPoint(
    cfg: Config, d: Shared, stopping: bool, at: Point, a: WorkAction, c: Choice, w: World, pushed: nat)
    requires Working(cfg, d, at, a, c, w, pushed)
    ensures
      var w' := Perform(cfg, w, WorkEffect(cfg, d, stopping, at, a, c));
      PointOk(NextPoint(cfg, d, stopping, at, a), w'.h, PushedAfter(w.h, pushed, a))
  {
    var e, p := WorkEffect(cfg, d, stopping, at, a, c), NextPoint(cfg, d, stopping, at, a);
    NextHands(cfg, d, stopping, at, a);
    if Delivering(a) {
      DeliveryEffect(cfg, d, stopping, at, a, c);
      WorkGuarded(cfg, d, stopping, at, a, c, w, pushed);
      DeliveryKeepsPoint(cfg, w, e.e, p, a, pushed);
    } else {
      MostWorkIsLight(cfg, d, stopping, at, a, c, w);
      LightKeepsHands(cfg, w, e);
      LightKeepsPoint(at, a, p, w.h, Perform(cfg, w, e).h, pushed);
    }
  }
}
