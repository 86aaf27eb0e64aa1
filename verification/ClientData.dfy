/**
 The state that `Client::Impl` guards with its record and data mutexes, and what
 each critical section does to it.

 Every section is a function on `Data`; the class `ClientImpl` performs the same
 sections in place and is proved against them.
 */
module ClientData {
  import opened Sequence

  datatype Option<+T> = None | Some(value: T)

  /** A thread. */
  type Tid = int

  // ---------------------------------------------------------------------
  // Values
  // ---------------------------------------------------------------------

  datatype ForceUnit = PoundForce | Newton | KiloPoundForce | KiloNewton | KilogramForce
  datatype TorqueUnit =
    PoundForceInch | PoundForceFoot | NewtonMeter | NewtonMillimeter | KilogramForceCentimeter | KiloNewtonMeter

  datatype Calibration = Calibration(
    countsPerForce: real, countsPerTorque: real, forceUnit: ForceUnit, torqueUnit: TorqueUnit)

  predicate ValidCalibration(c: Calibration) {
    c.countsPerForce > 0.0 && c.countsPerTorque > 0.0
  }

  datatype CalibrationSource = FromSensor | FromOverride

  datatype SensorConfiguration = SensorConfiguration(
    productName: string, calibration: Calibration, source: CalibrationSource, revision: nat)

  datatype RecoveryPolicy = Reconnect | FailStop

  datatype Config = Config(
    rateLimit: real, deliverErrors: bool, policy: RecoveryPolicy, initialDelay: real, maxDelay: real)

  predicate ValidConfig(c: Config) {
    c.rateLimit >= 0.0 && 0.0 < c.initialDelay <= c.maxDelay
  }

  datatype Axes = Axes(x: int, y: int, z: int)
  datatype Vector = Vector(x: real, y: real, z: real)

  datatype RawRecord = RawRecord(rdt: uint32, ft: uint32, status: uint32, force: Axes, torque: Axes)

  datatype Sample = Sample(
    raw: RawRecord, force: Vector, torque: Vector, forceUnit: ForceUnit, torqueUnit: TorqueUnit,
    revision: nat, receivedAt: real)

  datatype Severity = Healthy | Warn | Serious

  function ClassifyStatus(status: uint32): Severity {
    if status == 0 then Healthy else if status == 0x80010000 then Warn else Serious
  }

  datatype FaultCode =
    | NoFault | SensorConfigurationFault | TimeoutFault | SocketFault | SeriousStatusFault
    | FtStallFault | FtBackwardFault | MalformedStormFault | CallbackFault

  datatype SessionResult =
    | SessionStopped | SensorConfigurationFailure | SessionTimeout | SocketFailure | SeriousStatus
    | FtStalled | FtMovedBackward | MalformedStorm | CallbackFailure

  function FaultFor(r: SessionResult): FaultCode {
    match r
    case SensorConfigurationFailure => SensorConfigurationFault
    case SessionTimeout => TimeoutFault
    case SocketFailure => SocketFault
    case SeriousStatus => SeriousStatusFault
    case FtStalled => FtStallFault
    case FtMovedBackward => FtBackwardFault
    case MalformedStorm => MalformedStormFault
    case CallbackFailure => CallbackFault
    case SessionStopped => NoFault
  }

  datatype ClientState = Stopped | Connecting | Streaming | Backoff | Faulted

  /** Counters moved by the arrival of a record. */
  datatype RecordCounts = RecordCounts(
    received: nat, rateLimited: nat, lost: nat, duplicates: nat, outOfOrder: nat,
    deviceErrors: nat, warnings: nat, ftStalls: nat, ftBackwards: nat, ftRestarts: nat)

  /** The other counters. */
  datatype EventCounts = EventCounts(
    delivered: nat, callbackErrors: nat, malformed: nat, reconnects: nat, timeouts: nat, calibrationChanges: nat)

  datatype LastRecord = LastRecord(rdt: Option<uint32>, ft: Option<uint32>, status: uint32, progress: Option<FtKind>)

  datatype Health = Health(
    state: ClientState, faultCode: FaultCode, lastError: string, configuration: Option<SensorConfiguration>,
    last: LastRecord, receiveRate: nat, deliveryRate: nat, records: RecordCounts, events: EventCounts)

  const HEALTH_INITIAL := Health(
    Stopped, NoFault, "", None, LastRecord(None, None, 0, None), 0, 0,
    RecordCounts(0, 0, 0, 0, 0, 0, 0, 0, 0, 0), EventCounts(0, 0, 0, 0, 0, 0))

  /** Times are steady-clock readings; 0.0 is the source's default time point,
      which stands for "never". */
  datatype Data = Data(
    health: Health, fault: FaultCode, latest: Option<Sample>,
    lastDeliveryAt: real, lastRecordAt: real,
    generation: nat, deliveredGeneration: nat,
    receiveTimes: seq<real>, deliveryTimes: seq<real>, consecutiveMalformed: nat,
    rdt: RdtState, ft: FtState)

  const NEVER := 0.0

  const DATA_INITIAL := Data(
    HEALTH_INITIAL, NoFault, None, NEVER, NEVER, 0, 0, [], [], 0, RDT_INITIAL, FT_INITIAL)

  const MALFORMED_STORM_THRESHOLD := 10

  // ---------------------------------------------------------------------
  // Critical sections
  // ---------------------------------------------------------------------

  function Prune(times: seq<real>, now: real): seq<real> {
    if times != [] && now - times[0] > 1.0 then Prune(times[1..], now) else times
  }

  /** `health()`: prunes both windows, then reports their sizes. */
  function PruneWindows(d: Data, now: real): Data {
    d.(receiveTimes := Prune(d.receiveTimes, now), deliveryTimes := Prune(d.deliveryTimes, now))
  }

  /** The snapshot `health()` returns: a latched fault overrides the state, and the
      rates are the sizes of the windows. */
  function Report(d: Data): Health {
    d.health.(faultCode := d.fault, state := if d.fault != NoFault then Faulted else d.health.state,
              receiveRate := |d.receiveTimes|, deliveryRate := |d.deliveryTimes|)
  }

  /** `start()`, record section. */
  function ForgetDelivery(d: Data): Data {
    d.(lastDeliveryAt := NEVER)
  }

  /** `start()`, data section. */
  function OpenRun(d: Data): Data {
    d.(fault := NoFault,
       health := d.health.(state := Connecting, faultCode := NoFault, lastError := "",
                           receiveRate := 0, deliveryRate := 0),
       latest := None, lastRecordAt := NEVER,
       generation := d.generation + 1, deliveredGeneration := 0,
       receiveTimes := [], deliveryTimes := [], consecutiveMalformed := 0)
  }

  /** A failed `start()`: the data section of the rollback. */
  function RestoreRun(d: Data, saved: Data): Data {
    d.(health := saved.health, latest := saved.latest, lastRecordAt := saved.lastRecordAt,
       generation := saved.generation, deliveredGeneration := saved.deliveredGeneration,
       receiveTimes := saved.receiveTimes, deliveryTimes := saved.deliveryTimes,
       consecutiveMalformed := saved.consecutiveMalformed)
  }

  /** `FaultLatch::publish`: the first fault wins. */
  function Publish(d: Data, code: FaultCode, message: string): Data {
    if d.fault != NoFault then d
    else d.(fault := code, health := d.health.(state := Faulted, faultCode := code, lastError := message))
  }

  function SetState(d: Data, state: ClientState): Data {
    d.(health := d.health.(state := state))
  }

  function ApplyConfiguration(d: Data, c: SensorConfiguration): Data {
    var h := d.health;
    match h.configuration
    case None => d.(health := h.(configuration := Some(c.(revision := 1))))
    case Some(previous) =>
      if previous.calibration == c.calibration
      then d.(health := h.(configuration := Some(c.(revision := previous.revision))))
      else d.(health := h.(configuration := Some(c.(revision := previous.revision + 1)),
                           events := h.events.(calibrationChanges := h.events.calibrationChanges + 1)))
  }

  function BeginSessionData(d: Data): Data {
    d.(rdt := RdtReset(d.rdt), ft := FtBeginSession(d.ft))
  }

  function BiasReset(d: Data): Data {
    d.(rdt := RdtReset(d.rdt))
  }

  function CountTimeout(d: Data): Data {
    d.(health := d.health.(events := d.health.events.(timeouts := d.health.events.timeouts + 1)))
  }

  function CountMalformed(d: Data): Data {
    d.(health := d.health.(events := d.health.events.(malformed := d.health.events.malformed + 1)),
       consecutiveMalformed := d.consecutiveMalformed + 1)
  }

  function ClearMalformed(d: Data): Data {
    d.(consecutiveMalformed := 0)
  }

  function CallbackFailed(d: Data, message: string): Data {
    d.(health := d.health.(events := d.health.events.(callbackErrors := d.health.events.callbackErrors + 1),
                           lastError := message))
  }

  function EnterBackoff(d: Data, message: string): Data {
    d.(health := d.health.(events := d.health.events.(reconnects := d.health.events.reconnects + 1),
                           lastError := message, state := Backoff))
  }

  // --- handle_record, first section ---

  function CountRdt(c: RecordCounts, o: Observation): RecordCounts {
    match o.kind
    case Gap => c.(lost := c.lost + o.gap)
    case Duplicate => c.(duplicates := c.duplicates + 1)
    case OutOfOrder => c.(outOfOrder := c.outOfOrder + 1)
    case _ => c
  }

  function CountFt(c: RecordCounts, kind: FtKind): RecordCounts {
    match kind
    case Stall => c.(ftStalls := c.ftStalls + 1)
    case Backward => c.(ftBackwards := c.ftBackwards + 1)
    case Restart => c.(ftRestarts := c.ftRestarts + 1)
    case _ => c
  }

  function CountStatus(c: RecordCounts, severity: Severity): RecordCounts {
    match severity
    case Warn => c.(warnings := c.warnings + 1)
    case Serious => c.(deviceErrors := c.deviceErrors + 1)
    case Healthy => c
  }

  /** Everything a record adds to the counters, the rate limiter apart. */
  function CountRecord(c: RecordCounts, o: Observation, kind: FtKind, severity: Severity): RecordCounts {
    CountStatus(CountFt(CountRdt(c.(received := c.received + 1), o), kind), severity)
  }

  /** The record is kept from the callback whatever the rate limit says. */
  predicate Suppressed(cfg: Config, rdt: SequenceKind, ft: FtKind, severity: Severity) {
    || rdt.Duplicate? || rdt.OutOfOrder?
    || ft.Stall? || ft.Backward?
    || (severity.Serious? && !cfg.deliverErrors)
  }

  /** What ends the session, if anything. */
  function OutcomeOf(cfg: Config, ft: FtKind, severity: Severity): Option<SessionResult> {
    if severity.Serious? then Some(SeriousStatus)
    else if ft.Stall? && cfg.policy.FailStop? then Some(FtStalled)
    else if ft.Backward? && cfg.policy.FailStop? then Some(FtMovedBackward)
    else None
  }

  predicate TooSoon(cfg: Config, lastDeliveryAt: real, at: real) {
    cfg.rateLimit > 0.0 && lastDeliveryAt != NEVER && at - lastDeliveryAt < 1.0 / cfg.rateLimit
  }

  datatype Verdict = Verdict(deliver: bool, outcome: Option<SessionResult>)

  /** What becomes of a record. */
  function Decide(cfg: Config, o: Observation, ft: FtKind, severity: Severity, tooSoon: bool): Verdict {
    Verdict(!Suppressed(cfg, o.kind, ft, severity) && !tooSoon, OutcomeOf(cfg, ft, severity))
  }

  predicate RateLimits(cfg: Config, o: Observation, ft: FtKind, severity: Severity, tooSoon: bool) {
    !Suppressed(cfg, o.kind, ft, severity) && tooSoon
  }

  /** `handle_record` up to the callback; no verdict where the source throws
      because no configuration is known. */
  function Observe(cfg: Config, d: Data, r: RawRecord, at: real): (Data, Option<Verdict>) {
    var (rdt, o) := RdtObserve(d.rdt, r.rdt);
    var (ft, kind) := FtObserve(d.ft, r.ft);
    var severity := ClassifyStatus(r.status);
    if d.health.configuration.None? then (d.(rdt := rdt, ft := ft), None)
    else
      var window := Prune(d.receiveTimes + [at], at);
      var tooSoon := TooSoon(cfg, d.lastDeliveryAt, at);
      var counts := CountRecord(d.health.records, o, kind, severity);
      var h := d.health.(
        state := Streaming, receiveRate := |window|,
        last := LastRecord(Some(r.rdt), Some(r.ft), r.status, Some(kind)),
        records := if RateLimits(cfg, o, kind, severity, tooSoon)
                   then counts.(rateLimited := counts.rateLimited + 1) else counts);
      (d.(rdt := rdt, ft := ft, receiveTimes := window, lastRecordAt := at, health := h),
       Some(Decide(cfg, o, kind, severity, tooSoon)))
  }

  function Scale(v: Axes, counts: real): Vector
    requires counts > 0.0
  {
    Vector(v.x as real / counts, v.y as real / counts, v.z as real / counts)
  }

  function MakeSample(r: RawRecord, c: SensorConfiguration, at: real): Sample
    requires ValidCalibration(c.calibration)
  {
    Sample(r, Scale(r.force, c.calibration.countsPerForce), Scale(r.torque, c.calibration.countsPerTorque),
           c.calibration.forceUnit, c.calibration.torqueUnit, c.revision, at)
  }

  /** `handle_record` after a callback that returned. */
  function Delivered(d: Data, s: Sample): Data {
    var window := Prune(d.deliveryTimes + [s.receivedAt], s.receivedAt);
    d.(lastDeliveryAt := s.receivedAt, latest := Some(s), deliveryTimes := window,
       health := d.health.(events := d.health.events.(delivered := d.health.events.delivered + 1),
                           deliveryRate := |window|),
       deliveredGeneration := d.generation)
  }

  /** What a failed callback makes of the session. */
  function AfterCallbackFailure(cfg: Config, outcome: Option<SessionResult>): Option<SessionResult> {
    if outcome.Some? || cfg.policy.Reconnect? then outcome else Some(CallbackFailure)
  }

  // ---------------------------------------------------------------------
  // The sections performed in place
  // ---------------------------------------------------------------------

  method PruneRateWindow(times: seq<real>, now: real) returns (pruned: seq<real>)
    ensures pruned == Prune(times, now)
  {
    pruned := times;
    while pruned != [] && now - pruned[0] > 1.0
      invariant Prune(pruned, now) == Prune(times, now)
      decreases |pruned|
    {
      pruned := pruned[1..];
    }
  }

  method CountInPlace(before: RecordCounts, rdt: Observation, ft: FtKind, severity: Severity)
    returns (c: RecordCounts)
    ensures c == CountRecord(before, rdt, ft, severity)
  {
    c := before.(received := before.received + 1);
    match rdt.kind {
      case Gap => c := c.(lost := c.lost + rdt.gap);
      case Duplicate => c := c.(duplicates := c.duplicates + 1);
      case OutOfOrder => c := c.(outOfOrder := c.outOfOrder + 1);
      case _ =>
    }
    match ft {
      case Stall => c := c.(ftStalls := c.ftStalls + 1);
      case Backward => c := c.(ftBackwards := c.ftBackwards + 1);
      case Restart => c := c.(ftRestarts := c.ftRestarts + 1);
      case _ =>
    }
    if severity.Warn? {
      c := c.(warnings := c.warnings + 1);
    } else if severity.Serious? {
      c := c.(deviceErrors := c.deviceErrors + 1);
    }
  }

  /** The branches of `handle_record` that settle delivery and outcome. */
  method DecideInPlace(cfg: Config, rdt: Observation, ft: FtKind, severity: Severity, tooSoon: bool)
    returns (verdict: Verdict, limited: bool)
    ensures verdict == Decide(cfg, rdt, ft, severity, tooSoon)
    ensures limited <==> RateLimits(cfg, rdt, ft, severity, tooSoon)
  {
    var deliver := !(rdt.kind.Duplicate? || rdt.kind.OutOfOrder?);
    var outcome: Option<SessionResult> := None;
    if severity.Serious? {
      deliver := cfg.deliverErrors && deliver;
      outcome := Some(SeriousStatus);
    }
    if outcome.None? && ft.Stall? {
      outcome := Some(FtStalled);
    } else if outcome.None? && ft.Backward? {
      outcome := Some(FtMovedBackward);
    }
    if ft.Stall? || ft.Backward? {
      deliver := false;
      if cfg.policy.Reconnect? && (outcome == Some(FtStalled) || outcome == Some(FtMovedBackward)) {
        outcome := None;
      }
    }
    limited := deliver && tooSoon;
    verdict := Verdict(deliver && !limited, outcome);
  }

  class ClientImpl {
    const config: Config
    var health: Health
    var fault: FaultCode
    var latest: Option<Sample>
    var lastDeliveryAt: real
    var lastRecordAt: real
    var generation: nat
    var deliveredGeneration: nat
    var receiveTimes: seq<real>
    var deliveryTimes: seq<real>
    var consecutiveMalformed: nat
    const rdtSequence: RdtSequenceTracker
    const ftSequence: FtSequenceTracker

    function State(): Data
      reads this, rdtSequence, ftSequence
    {
      Data(health, fault, latest, lastDeliveryAt, lastRecordAt, generation, deliveredGeneration,
           receiveTimes, deliveryTimes, consecutiveMalformed, rdtSequence.State(), ftSequence.State())
    }

    constructor (config: Config)
      ensures State() == DATA_INITIAL && this.config == config
      ensures fresh(rdtSequence) && fresh(ftSequence)
    {
      this.config := config;
      health, fault, latest := HEALTH_INITIAL, NoFault, None;
      lastDeliveryAt, lastRecordAt := NEVER, NEVER;
      generation, deliveredGeneration := 0, 0;
      receiveTimes, deliveryTimes, consecutiveMalformed := [], [], 0;
      rdtSequence := new RdtSequenceTracker();
      ftSequence := new FtSequenceTracker();
    }

    method ApplySensorConfiguration(c: SensorConfiguration)
      modifies this
      ensures State() == ApplyConfiguration(old(State()), c)
    {
      var revision := 1;
      if health.configuration.Some? {
        var previous := health.configuration.value;
        if previous.calibration == c.calibration {
          revision := previous.revision;
        } else {
          revision := previous.revision + 1;
          health := health.(events := health.events.(calibrationChanges := health.events.calibrationChanges + 1));
        }
      }
      health := health.(configuration := Some(c.(revision := revision)));
    }

    method PublishFault(code: FaultCode, message: string) returns (published: bool)
      modifies this
      ensures State() == Publish(old(State()), code, message)
      ensures published <==> old(fault) == NoFault
    {
      if fault != NoFault {
        return false;
      }
      fault := code;
      health := health.(state := Faulted, faultCode := code, lastError := message);
      return true;
    }

    method HandleRecord(r: RawRecord, at: real) returns (verdict: Option<Verdict>)
      modifies this, rdtSequence, ftSequence
      ensures (State(), verdict) == Observe(config, old(State()), r, at)
    {
      var rdt := rdtSequence.Observe(r.rdt);
      var ft := ftSequence.Observe(r.ft);
      var severity := ClassifyStatus(r.status);
      if health.configuration.None? {
        return None;
      }
      receiveTimes := PruneRateWindow(receiveTimes + [at], at);
      lastRecordAt := at;
      var counts := CountInPlace(health.records, rdt, ft, severity);
      var decided, limited := DecideInPlace(config, rdt, ft, severity, TooSoon(config, lastDeliveryAt, at));
      if limited {
        counts := counts.(rateLimited := counts.rateLimited + 1);
      }
      health := health.(state := Streaming, receiveRate := |receiveTimes|, records := counts,
                        last := LastRecord(Some(r.rdt), Some(r.ft), r.status, Some(ft)));
      return Some(decided);
    }

    method CompleteDelivery(s: Sample)
      modifies this
      ensures State() == Delivered(old(State()), s)
    {
      lastDeliveryAt := s.receivedAt;
      latest := Some(s);
      deliveryTimes := PruneRateWindow(deliveryTimes + [s.receivedAt], s.receivedAt);
      health := health.(events := health.events.(delivered := health.events.delivered + 1),
                        deliveryRate := |deliveryTimes|);
      deliveredGeneration := generation;
    }

    /** One malformed datagram; true when it completes a storm. */
    method CountMalformedDatagram() returns (storm: bool)
      modifies this
      ensures State() == CountMalformed(old(State()))
      ensures storm <==> old(consecutiveMalformed) + 1 >= MALFORMED_STORM_THRESHOLD
    {
      health := health.(events := health.events.(malformed := health.events.malformed + 1));
      consecutiveMalformed := consecutiveMalformed + 1;
      return consecutiveMalformed >= MALFORMED_STORM_THRESHOLD;
    }

    /** The data section of `health()`, read at clock `now`. */
    method ReadHealth(now: real) returns (snapshot: Health)
      modifies this
      ensures State() == PruneWindows(old(State()), now)
      ensures snapshot == Report(State())
    {
      receiveTimes := PruneRateWindow(receiveTimes, now);
      deliveryTimes := PruneRateWindow(deliveryTimes, now);
      snapshot := health.(faultCode := fault, receiveRate := |receiveTimes|, deliveryRate := |deliveryTimes|);
      if fault != NoFault {
        snapshot := snapshot.(state := Faulted);
      }
    }
  }
}
