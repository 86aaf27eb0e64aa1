/**
 The lifecycle machine together with the full data: which critical section each
 step of each thread performs, and that it is always performed where its
 assumptions hold.
 */
module ClientWorld {
  import opened ClientData
  import opened StreamHistory
  import opened ClientLifecycle
  import opened ClientControl
  import opened ClientRuns

  // ---------------------------------------------------------------------
  // What a step does to the data
  // ---------------------------------------------------------------------

  /** What the environment decides beyond the action itself. */
  datatype Choice = Choice(configuration: SensorConfiguration, message: string)

  /** The data a `start` saves for its rollback, section by section. */
  datatype Kept = Kept(
    at: real, paced: seq<real>, data: Data, received: seq<real>, delivered: seq<real>, tail: Tail)

  datatype Effect = Nothing | One(e: Event) | Two(first: Event, second: Event)

  function Perform(cfg: Config, w: World, e: Effect): World {
    match e
    case Nothing => w
    case One(e) => Next(cfg, w, e)
    case Two(e, f) => Next(cfg, Next(cfg, w, e), f)
  }

  function WorkEffect(cfg: Config, d: Shared, stopping: bool, at: Point, a: WorkAction, c: Choice): Effect
    requires WorkerAt(at, a)
  {
    match a
    case SetConnecting => One(ChangeState(Connecting))
    case Configured => One(Configure(c.configuration))
    case ResetTrackers => One(BeginTracking)
    case CountsTimeout => if stopping then Nothing else One(ReceiveTimeout)
    case GetsMalformed(_) => if stopping then Nothing else One(Malformed)
    case GetsRecord(_, now) => if stopping then Nothing else Two(Tick(now), WellFormed)
    case HandlesRecord(_, _) => One(Record(at.r, at.at))
    case CompletesDelivery => One(CallbackReturned)
    case RecordsError => One(CallbackThrew(c.message))
    case DecidesNext =>
      if !at.result.SessionStopped? && cfg.policy.FailStop? then One(PublishFault(FaultFor(at.result), c.message))
      else if at.result.SessionStopped? || stopping then Nothing
      else One(BackOff(c.message))
    case Catches => if stopping then Nothing else One(PublishFault(SocketFault, c.message))
    case Ends => if Faulty(d) then Nothing else One(ChangeState(Stopped))
    case _ => Nothing
  }

  function StartEffect(a: StartAction): Effect {
    match a
    case StartForgets => One(Forget)
    case StartOpens => One(Open)
    case _ => Nothing
  }

  function UndoEffect(saved: Saved, kept: Kept, a: UndoAction): Effect {
    match a
    case UndoesFlags => Nothing
    case UndoesPace => One(RestorePace(kept.at, kept.paced))
    case UndoesData => One(Restore(kept.data, kept.received, kept.delivered, kept.tail))
    case UndoesLatch => One(ResetLatch)
    case UndoesPublish =>
      if saved.fault == NoFault then Nothing else One(PublishFault(saved.fault, kept.data.health.lastError))
  }

  function StopEffect(d: Shared, a: StopAction): Effect {
    if (a.StopFindsNone? || a.StopFinishes?) && !Faulty(d) then One(ChangeState(Stopped)) else Nothing
  }

  function QueryEffect(s: Core, a: QueryAction): Effect {
    match a
    case Biases(biasOk, startOk) => if MayBias(s) && biasOk && startOk then One(Bias) else Nothing
    case ReadsHealth(now) => Two(Tick(now), ReadHealth)
    case _ => Nothing
  }

  // ---------------------------------------------------------------------
  // The machine
  // ---------------------------------------------------------------------

  /** `first` is the data as it was when the `start` now under way was admitted,
      and `pushed` counts the samples handed out up to the last callback that
      returned. */
  datatype System = System(core: Core, world: World, kept: Kept, first: World, pushed: nat)

  const KEPT_INITIAL := Kept(NEVER, [], DATA_INITIAL, [], [], Tail([], 0))
  const SYSTEM_INITIAL := System(CORE_INITIAL, WORLD_INITIAL, KEPT_INITIAL, WORLD_INITIAL, 0)

  /** What `handle_record` makes of a record. */
  ghost predicate Judged(cfg: Config, w: World, r: RawRecord, at: real, verdict: Verdict, sample: Sample) {
    w.d.health.configuration.Some? && ValidCalibration(w.d.health.configuration.value.calibration) ==>
      && Observe(cfg, w.d, r, at).1 == Some(verdict)
      && (verdict.deliver ==> sample == MakeSample(r, w.d.health.configuration.value, at))
  }

  predicate ClockReads(w: World, now: real) {
    now > NEVER && now >= w.h.clock
  }

  /** The environment's choices fit the data. */
  ghost predicate WorkFits(cfg: Config, w: World, at: Point, a: WorkAction, c: Choice)
    requires WorkerAt(at, a)
  {
    match a
    case Configured => ValidCalibration(c.configuration.calibration)
    case GetsMalformed(storm) => storm <==> w.d.consecutiveMalformed + 1 >= MALFORMED_STORM_THRESHOLD
    case GetsRecord(_, now) => ClockReads(w, now)
    case HandlesRecord(verdict, sample) => Judged(cfg, w, at.r, at.at, verdict, sample)
    case _ => true
  }

  ghost predicate Fits(cfg: Config, y: System, t: Tid, a: Action, c: Choice)
    requires Can(y.core, t, a)
  {
    match a
    case Work(x) => WorkFits(cfg, y.world, WorkerOf(y.core, t).at, x, c)
    case Query(x) => x.ReadsHealth? ==> ClockReads(y.world, x.now)
    case _ => true
  }

  ghost predicate Enabled(cfg: Config, y: System, t: Tid, a: Action, c: Choice) {
    Can(y.core, t, a) && Fits(cfg, y, t, a, c)
  }

  /** What the worker does to the whole system. */
  function WorkStep(cfg: Config, y: System, t: Tid, a: WorkAction, c: Choice): System
    requires WorkerCan(y.core, t, a)
  {
    var e := WorkEffect(cfg, y.core.shared, y.core.stopping, WorkerOf(y.core, t).at, a, c);
    y.(core := WorkerDo(cfg, y.core, t, a), world := Perform(cfg, y.world, e),
       pushed := if a.CallbackReturns? then |y.world.h.handed| else y.pushed)
  }

  function Keep(k: Kept, w: World, a: StartAction): Kept {
    if a.StartForgets? then k.(at := w.d.lastDeliveryAt, paced := w.h.paced)
    else if a.StartOpens? then k.(data := w.d, received := w.h.received, delivered := w.h.delivered, tail := w.h.tail)
    else k
  }

  function StartStep(cfg: Config, y: System, t: Tid, a: StartAction): System
    requires StartCan(y.core, t, a)
  {
    y.(core := StartDo(cfg, y.core, t, a), world := Perform(cfg, y.world, StartEffect(a)),
       kept := Keep(y.kept, y.world, a), first := if a.StartClaims? then y.world else y.first)
  }

  function UndoStep(cfg: Config, y: System, t: Tid, a: UndoAction): System
    requires UndoCan(y.core, t, a)
  {
    var e := UndoEffect(y.core.lock.value.section.saved, y.kept, a);
    y.(core := UndoDo(y.core, t, a), world := Perform(cfg, y.world, e))
  }

  function StopStep(cfg: Config, y: System, t: Tid, a: StopAction): System
    requires StopCan(y.core, t, a)
  {
    y.(core := StopDo(y.core, t, a), world := Perform(cfg, y.world, StopEffect(y.core.shared, a)))
  }

  function QueryStep(cfg: Config, y: System, t: Tid, a: QueryAction): System
    requires QueryCan(y.core, t, a)
  {
    y.(core := QueryDo(y.core, t, a), world := Perform(cfg, y.world, QueryEffect(y.core, a)))
  }

  function Step(cfg: Config, y: System, t: Tid, a: Action, c: Choice): System
    requires Can(y.core, t, a)
  {
    match a
    case Work(x) => WorkStep(cfg, y, t, x, c)
    case Start(x) => StartStep(cfg, y, t, x)
    case Undo(x) => UndoStep(cfg, y, t, x)
    case Stop(x) => StopStep(cfg, y, t, x)
    case Query(x) => QueryStep(cfg, y, t, x)
  }

  // ---------------------------------------------------------------------
  // The control fields agree with the data
  // ---------------------------------------------------------------------

  datatype View = View(
    fault: FaultCode, state: ClientState, configured: bool, pending: bool, reconnects: nat,
    generation: nat, delivered: nat)

  function DataView(w: World): View {
    View(w.d.fault, w.d.health.state, w.d.health.configuration.Some?, w.h.pending.Some?,
         w.d.health.events.reconnects, w.d.generation, w.d.deliveredGeneration)
  }

  function CoreView(d: Shared): View {
    View(d.fault, d.state, d.configured, d.pending, d.reconnects, d.generation, d.delivered)
  }

  function PublishView(v: View, code: FaultCode): View {
    if v.fault != NoFault then v else v.(fault := code, state := Faulted)
  }

  /** What an event does to the view; `deliver` is the verdict on a record. */
  function ViewAfter(v: View, e: Event, deliver: bool): View {
    match e
    case Open => v.(fault := NoFault, state := Connecting, generation := v.generation + 1, delivered := 0)
    case Restore(saved, _, _, _) =>
      v.(state := saved.health.state, configured := saved.health.configuration.Some?,
         reconnects := saved.health.events.reconnects, generation := saved.generation,
         delivered := saved.deliveredGeneration)
    case ResetLatch => v.(fault := NoFault)
    case PublishFault(code, _) => PublishView(v, code)
    case ChangeState(state) => v.(state := state)
    case Configure(_) => v.(configured := true)
    case Record(_, _) => v.(state := Streaming, pending := deliver)
    case CallbackReturned => v.(pending := false, delivered := v.generation)
    case CallbackThrew(_) => v.(pending := false)
    case BackOff(_) => v.(state := Backoff, reconnects := v.reconnects + 1)
    case _ => v
  }

  function EffectView(v: View, e: Effect, deliver: bool): View {
    match e
    case Nothing => v
    case One(e) => ViewAfter(v, e, deliver)
    case Two(e, f) => ViewAfter(ViewAfter(v, e, deliver), f, deliver)
  }

  predicate Delivers(cfg: Config, w: World, r: RawRecord, at: real) {
    var verdict := Observe(cfg, w.d, r, at).1;
    verdict.Some? && verdict.value.deliver
  }

  lemma RecordView(cfg: Config, w: World, r: RawRecord, at: real)
    requires Guard(cfg, w, Event.Record(r, at)) && ScaleInv(w)
    ensures DataView(Next(cfg, w, Event.Record(r, at)))
         == ViewAfter(DataView(w), Event.Record(r, at), Delivers(cfg, w, r, at))
  {
    RecordRelates(cfg, w, r, at);
  }

  lemma NextView(cfg: Config, w: World, e: Event, deliver: bool)
    requires Guard(cfg, w, e) && ScaleInv(w)
    requires e.Record? ==> deliver == Delivers(cfg, w, e.r, e.at)
    ensures DataView(Next(cfg, w, e)) == ViewAfter(DataView(w), e, deliver)
  {
    if e.Record? {
      RecordView(cfg, w, e.r, e.at);
    }
  }

  // ---------------------------------------------------------------------
  // Guarded effects
  // ---------------------------------------------------------------------

  /** An effect of two events is a reading of the clock and a use of it. */
  ghost predicate Guarded(cfg: Config, w: World, e: Effect) {
    match e
    case Nothing => true
    case One(e) => Guard(cfg, w, e)
    case Two(e, f) => e.Tick? && Guard(cfg, w, e) && (f.ReadHealth? || f.WellFormed?)
  }

  lemma GuardedKeepsStream(cfg: Config, w: World, e: Effect)
    requires Guarded(cfg, w, e) && StreamInv(cfg, w)
    ensures StreamInv(cfg, Perform(cfg, w, e))
  {
    match e
    case Nothing =>
    case One(e) => StreamKept(cfg, w, e);
    case Two(e, f) =>
      StreamKept(cfg, w, e);
      StreamKept(cfg, Next(cfg, w, e), f);
  }

  lemma GuardedView(cfg: Config, w: World, e: Effect, deliver: bool)
    requires Guarded(cfg, w, e) && ScaleInv(w)
    requires e.One? && e.e.Record? ==> deliver == Delivers(cfg, w, e.e.r, e.e.at)
    ensures DataView(Perform(cfg, w, e)) == EffectView(DataView(w), e, deliver)
  {
    match e
    case Nothing =>
    case One(e) => NextView(cfg, w, e, deliver);
    case Two(e, f) =>
  }
}
