/**
 The life of the record stream: every critical section of `ClientData` as an
 event, together with a history of what happened, and what holds after any
 sequence of events.

 The lifecycle machine of `ClientLifecycle.dfy` performs these events and shows
 that their guards are met.
 */
module StreamHistory {
  import opened Sequence
  import opened ClientData

  /** A record as it was classified. */
  datatype Entry = Entry(raw: RawRecord, rdt: SequenceKind, ft: FtKind, severity: Severity)

  /** A sample handed to the callback. */
  datatype Handed = Handed(sample: Sample, position: Position, calibration: Calibration)

  datatype History = History(
    clock: real,
    entries: seq<Entry>,            // every record counted, over the client's life
    rdtTrace: seq<RdtEvent>,        // what the RDT tracker was shown
    position: Position,             // where the F/T counter stands
    calibrations: seq<Calibration>, // the calibration of each revision
    handed: seq<Handed>,            // every sample handed to the callback
    pending: Option<Sample>,        // the sample whose callback has not finished
    received: seq<real>,            // receive times of this run
    delivered: seq<real>,           // receive times of this run's completed deliveries
    paced: seq<real>,               // the same, as the rate limiter sees them
    tail: Tail)

  /** More of this run: its completed deliveries, and how many malformed datagrams
      have come in a row. */
  datatype Tail = Tail(samples: seq<Sample>, streak: nat)

  datatype World = World(d: Data, h: History)

  const HISTORY_INITIAL := History(NEVER, [], [], Position(0, 0), [], [], None, [], [], [], Tail([], 0))
  const WORLD_INITIAL := World(DATA_INITIAL, HISTORY_INITIAL)

  datatype Event =
    | Tick(now: real)
    | ReadHealth
    | Forget
    | Open
    | RestorePace(at: real, paced: seq<real>)
    | Restore(saved: Data, received: seq<real>, delivered: seq<real>, tail: Tail)
    | ResetLatch
    | PublishFault(code: FaultCode, message: string)
    | ChangeState(state: ClientState)
    | Configure(c: SensorConfiguration)
    | BeginTracking
    | Bias
    | ReceiveTimeout
    | Malformed
    | WellFormed
    | Record(r: RawRecord, at: real)
    | CallbackReturned
    | CallbackThrew(message: string)
    | BackOff(message: string)

  ghost predicate Sorted(ts: seq<real>) {
    forall i, j :: 0 <= i < j < |ts| ==> ts[i] <= ts[j]
  }

  /** `window` is `all` without a prefix of times more than a second old. */
  ghost predicate WindowOf(window: seq<real>, all: seq<real>, clock: real) {
    && |window| <= |all| && window == all[|all| - |window|..]
    && forall i :: 0 <= i < |all| - |window| ==> clock - all[i] > 1.0
  }

  ghost predicate AllAtMost(ts: seq<real>, bound: real) {
    forall i :: 0 <= i < |ts| ==> ts[i] <= bound
  }

  /** Successive deliveries keep the limiter's distance, and it remembers the last. */
  ghost predicate Paced(cfg: Config, ts: seq<real>, last: real) {
    && (if ts == [] then last == NEVER else last == ts[|ts| - 1])
    && (forall i :: 0 <= i < |ts| ==> ts[i] > NEVER)
    && (cfg.rateLimit > 0.0 ==> forall i :: 0 < i < |ts| ==> ts[i] - ts[i - 1] >= 1.0 / cfg.rateLimit)
  }

  /** What the caller of each critical section must have arranged. */
  ghost predicate Guard(cfg: Config, w: World, e: Event) {
    var d, h := w.d, w.h;
    match e
    case Tick(now) => now > NEVER && now >= h.clock
    case Forget => h.pending.None?
    case Open => h.pending.None?
    case RestorePace(at, paced) => h.pending.None? && Paced(cfg, paced, at)
    case Restore(saved, received, delivered, tail) =>
      && h.pending.None? && TimesOk(saved, received, delivered, h.clock) && TailOk(saved, delivered, tail)
      && saved.health.last == d.health.last
      && saved.health.records == d.health.records && saved.health.events == d.health.events
      && saved.health.configuration == d.health.configuration
    case Configure(c) => ValidCalibration(c.calibration)
    case Record(r, at) =>
      && h.pending.None? && d.health.configuration.Some?
      && NEVER < at <= h.clock && AllAtMost(h.received, at)
    case CallbackReturned => h.pending.Some?
    case CallbackThrew(_) => h.pending.Some?
    case _ => true
  }

  function AfterRecord(cfg: Config, w: World, r: RawRecord, at: real): World
    requires w.d.health.configuration.Some? && ValidCalibration(w.d.health.configuration.value.calibration)
  {
    var (d, verdict) := Observe(cfg, w.d, r, at);
    var entry := Entry(r, RdtObserve(w.d.rdt, r.rdt).1.kind, FtObserve(w.d.ft, r.ft).1, ClassifyStatus(r.status));
    var position := Advance(w.d.ft, w.h.position, r.ft);
    var c := w.d.health.configuration.value;
    var sample := MakeSample(r, c, at);
    var h := w.h.(entries := w.h.entries + [entry], rdtTrace := w.h.rdtTrace + [RdtEvent.Record(r.rdt)],
                  position := position, received := w.h.received + [at]);
    World(d, if verdict.Some? && verdict.value.deliver
             then h.(handed := h.handed + [Handed(sample, position, c.calibration)], pending := Some(sample))
             else h)
  }

  function AfterConfigure(w: World, c: SensorConfiguration): World {
    var d := ApplyConfiguration(w.d, c);
    var changed := w.d.health.configuration.None?
                   || w.d.health.configuration.value.calibration != c.calibration;
    World(d, if changed then w.h.(calibrations := w.h.calibrations + [c.calibration]) else w.h)
  }

  function Next(cfg: Config, w: World, e: Event): World {
    var d, h := w.d, w.h;
    match e
    case Tick(now) => w.(h := h.(clock := now))
    case ReadHealth => w.(d := PruneWindows(d, h.clock))
    case Forget => World(ForgetDelivery(d), h.(paced := []))
    case Open => World(OpenRun(d), h.(received := [], delivered := [], tail := Tail([], 0)))
    case RestorePace(at, paced) => World(d.(lastDeliveryAt := at), h.(paced := paced))
    case Restore(saved, received, delivered, tail) =>
      World(RestoreRun(d, saved), h.(received := received, delivered := delivered, tail := tail))
    case ResetLatch => w.(d := d.(fault := NoFault))
    case PublishFault(code, message) => w.(d := Publish(d, code, message))
    case ChangeState(state) => w.(d := SetState(d, state))
    case Configure(c) => AfterConfigure(w, c)
    case BeginTracking => World(BeginSessionData(d), h.(rdtTrace := h.rdtTrace + [Reset]))
    case Bias => World(BiasReset(d), h.(rdtTrace := h.rdtTrace + [Reset]))
    case ReceiveTimeout => w.(d := CountTimeout(d))
    case Malformed => World(CountMalformed(d), h.(tail := h.tail.(streak := h.tail.streak + 1)))
    case WellFormed => World(ClearMalformed(d), h.(tail := h.tail.(streak := 0)))
    case Record(r, at) =>
      if d.health.configuration.Some? && ValidCalibration(d.health.configuration.value.calibration)
      then AfterRecord(cfg, w, r, at) else w
    case CallbackReturned =>
      if h.pending.None? then w
      else World(Delivered(d, h.pending.value),
                 h.(pending := None, delivered := h.delivered + [h.pending.value.receivedAt],
                    paced := h.paced + [h.pending.value.receivedAt],
                    tail := h.tail.(samples := h.tail.samples + [h.pending.value])))
    case CallbackThrew(message) => World(CallbackFailed(d, message), h.(pending := None))
    case BackOff(message) => w.(d := EnterBackoff(d, message))
  }

  /** The effect of a record, field by field. */
  ghost predicate RecordTo(cfg: Config, w: World, r: RawRecord, at: real, w': World) {
    var o, kind, severity := RdtObserve(w.d.rdt, r.rdt).1, FtObserve(w.d.ft, r.ft).1, ClassifyStatus(r.status);
    var suppressed, soon := Suppressed(cfg, o.kind, kind, severity), TooSoon(cfg, w.d.lastDeliveryAt, at);
    var before, after := w.d.health, w'.d.health;
    && w'.d == w.d.(rdt := RdtObserve(w.d.rdt, r.rdt).0, ft := FtObserve(w.d.ft, r.ft).0, lastRecordAt := at,
                    receiveTimes := Prune(w.d.receiveTimes + [at], at), health := after)
    && after.events == before.events && after.configuration == before.configuration && after.state == Streaming
    && after.faultCode == before.faultCode
    && after.last == LastRecord(Some(r.rdt), Some(r.ft), r.status, Some(kind))
    && after.records.received == before.records.received + 1
    && after.records.rateLimited == before.records.rateLimited + (if !suppressed && soon then 1 else 0)
    && after.records.lost == before.records.lost + o.gap
    && w'.h == w.h.(entries := w.h.entries + [Entry(r, o.kind, kind, severity)],
                    rdtTrace := w.h.rdtTrace + [RdtEvent.Record(r.rdt)],
                    position := Advance(w.d.ft, w.h.position, r.ft), received := w.h.received + [at],
                    handed := w'.h.handed, pending := w'.h.pending)
    && if suppressed || soon then w'.h.handed == w.h.handed && w'.h.pending == w.h.pending
       else
         && before.configuration.Some? && ValidCalibration(before.configuration.value.calibration)
         && var sample := MakeSample(r, before.configuration.value, at);
         && w'.h.pending == Some(sample)
         && w'.h.handed == w.h.handed + [Handed(sample, w'.h.position, before.configuration.value.calibration)]
  }

  lemma RecordRelates(cfg: Config, w: World, r: RawRecord, at: real)
    requires w.d.health.configuration.Some? && ValidCalibration(w.d.health.configuration.value.calibration)
    ensures RecordTo(cfg, w, r, at, AfterRecord(cfg, w, r, at))
  {
  }

  // ---------------------------------------------------------------------
  // Rate windows
  // ---------------------------------------------------------------------

  ghost predicate TimesOk(d: Data, received: seq<real>, delivered: seq<real>, clock: real) {
    && Sorted(received) && AllAtMost(received, clock) && WindowOf(d.receiveTimes, received, clock)
    && Sorted(delivered) && AllAtMost(delivered, clock) && WindowOf(d.deliveryTimes, delivered, clock)
    && (delivered != [] ==> received != [] && AllAtMost(delivered, received[|received| - 1]))
  }

  ghost predicate WindowsInv(w: World) {
    && TimesOk(w.d, w.h.received, w.h.delivered, w.h.clock)
    && (w.h.pending.Some? ==> w.h.received != [] && w.h.received[|w.h.received| - 1] == w.h.pending.value.receivedAt)
  }

  lemma {:induction false} PruneIsWindow(window: seq<real>, all: seq<real>, clock: real, now: real)
    requires WindowOf(window, all, clock) && clock <= now
    ensures WindowOf(Prune(window, now), all, now)
    decreases |window|
  {
    if window != [] && now - window[0] > 1.0 {
      var k := |all| - |window|;
      assert all[k] == window[0];
      assert window[1..] == all[k + 1..];
      forall i | 0 <= i < k + 1 ensures now - all[i] > 1.0 {
        if i < k {
          assert clock - all[i] > 1.0;
        }
      }
      PruneIsWindow(window[1..], all, now, now);
    }
  }

  lemma {:induction false} PushWindow(window: seq<real>, all: seq<real>, at: real, clock: real)
    requires WindowOf(window, all, clock) && at <= clock
    ensures WindowOf(Prune(window + [at], at), all + [at], clock)
  {
    assert (all + [at])[|all| - |window|..] == window + [at];
    PruneEarlier(window + [at], all + [at], at, clock);
  }

  /** Pruning by an older reading of the clock keeps a window. */
  lemma {:induction false} PruneEarlier(window: seq<real>, all: seq<real>, at: real, clock: real)
    requires WindowOf(window, all, clock) && at <= clock
    ensures WindowOf(Prune(window, at), all, clock)
    decreases |window|
  {
    if window != [] && at - window[0] > 1.0 {
      var k := |all| - |window|;
      assert all[k] == window[0];
      assert window[1..] == all[k + 1..];
      PruneEarlier(window[1..], all, at, clock);
    }
  }

  lemma WindowAges(window: seq<real>, all: seq<real>, clock: real, now: real)
    requires WindowOf(window, all, clock) && clock <= now
    ensures WindowOf(window, all, now)
  {
    forall i | 0 <= i < |all| - |window| ensures now - all[i] > 1.0 {
      assert clock - all[i] > 1.0;
    }
  }

  /** A time pushed no earlier than the others and no later than the clock. */
  lemma Pushed(ts: seq<real>, at: real, clock: real)
    requires Sorted(ts) && AllAtMost(ts, at) && at <= clock
    ensures Sorted(ts + [at]) && AllAtMost(ts + [at], clock) && AllAtMost(ts + [at], at)
  {
  }

  lemma RecordKeepsWindows(cfg: Config, w: World, r: RawRecord, at: real, w': World)
    requires Guard(cfg, w, Event.Record(r, at)) && WindowsInv(w) && RecordTo(cfg, w, r, at, w')
    ensures WindowsInv(w')
  {
    PushWindow(w.d.receiveTimes, w.h.received, at, w.h.clock);
    Pushed(w.h.received, at, w.h.clock);
  }

  lemma ReturnKeepsWindows(cfg: Config, w: World)
    requires Guard(cfg, w, CallbackReturned) && WindowsInv(w)
    ensures WindowsInv(Next(cfg, w, CallbackReturned))
  {
    var d, h, at := w.d, w.h, w.h.pending.value.receivedAt;
    PushWindow(d.deliveryTimes, h.delivered, at, h.clock);
    Pushed(h.delivered, at, h.clock);
  }

  lemma ClockKeepsWindows(cfg: Config, w: World, e: Event)
    requires Guard(cfg, w, e) && WindowsInv(w) && (e.Tick? || e.ReadHealth?)
    ensures WindowsInv(Next(cfg, w, e))
  {
    var d, h := w.d, w.h;
    if e.Tick? {
      WindowAges(d.receiveTimes, h.received, h.clock, e.now);
      WindowAges(d.deliveryTimes, h.delivered, h.clock, e.now);
    } else {
      PruneIsWindow(d.receiveTimes, h.received, h.clock, h.clock);
      PruneIsWindow(d.deliveryTimes, h.delivered, h.clock, h.clock);
    }
  }

  lemma EmptyTimes(d: Data, clock: real)
    requires d.receiveTimes == [] && d.deliveryTimes == []
    ensures TimesOk(d, [], [], clock)
  {
  }

  lemma TimesCarry(d: Data, d': Data, received: seq<real>, delivered: seq<real>, clock: real)
    requires TimesOk(d, received, delivered, clock)
    requires d'.receiveTimes == d.receiveTimes && d'.deliveryTimes == d.deliveryTimes
    ensures TimesOk(d', received, delivered, clock)
  {
  }

  /** Events that replace the windows and their histories together. */
  lemma ResetKeepsWindows(cfg: Config, w: World, e: Event)
    requires Guard(cfg, w, e) && WindowsInv(w) && (e.Open? || e.Restore? || e.CallbackThrew?)
    ensures WindowsInv(Next(cfg, w, e))
  {
    var d' := Next(cfg, w, e).d;
    if e.Open? {
      EmptyTimes(d', w.h.clock);
    } else if e.Restore? {
      TimesCarry(e.saved, d', e.received, e.delivered, w.h.clock);
    } else {
      TimesCarry(w.d, d', w.h.received, w.h.delivered, w.h.clock);
    }
  }

  /** Events that leave windows and times alone. */
  predicate TimesApart(e: Event) {
    !e.Tick? && !e.ReadHealth? && !e.Record? && !e.CallbackReturned? && !e.CallbackThrew? && !e.Open? && !e.Restore?
  }

  lemma OthersKeepTimes(cfg: Config, w: World, e: Event)
    requires TimesApart(e)
    ensures
      var w' := Next(cfg, w, e);
      && w'.d.receiveTimes == w.d.receiveTimes && w'.d.deliveryTimes == w.d.deliveryTimes
      && w'.h.received == w.h.received && w'.h.delivered == w.h.delivered && w'.h.clock == w.h.clock
      && w'.h.pending == w.h.pending
  {
  }

  lemma WindowsKept(cfg: Config, w: World, e: Event)
    requires Guard(cfg, w, e) && WindowsInv(w) && ScaleInv(w)
    ensures WindowsInv(Next(cfg, w, e))
  {
    if TimesApart(e) {
      OthersKeepTimes(cfg, w, e);
      TimesCarry(w.d, Next(cfg, w, e).d, w.h.received, w.h.delivered, w.h.clock);
    } else if e.Tick? || e.ReadHealth? {
      ClockKeepsWindows(cfg, w, e);
    } else if e.Record? {
      RecordRelates(cfg, w, e.r, e.at);
      RecordKeepsWindows(cfg, w, e.r, e.at, AfterRecord(cfg, w, e.r, e.at));
    } else if e.CallbackReturned? {
      ReturnKeepsWindows(cfg, w);
    } else {
      ResetKeepsWindows(cfg, w, e);
    }
  }

  /** How many of the times are at most one second old. */
  function RecentCount(ts: seq<real>, now: real): nat {
    if ts == [] then 0 else (if now - ts[0] <= 1.0 then 1 else 0) + RecentCount(ts[1..], now)
  }

  lemma {:induction false} AllRecent(ts: seq<real>, now: real)
    requires forall i :: 0 <= i < |ts| ==> now - ts[i] <= 1.0
    ensures RecentCount(ts, now) == |ts|
  {
    if ts != [] {
      AllRecent(ts[1..], now);
    }
  }

  lemma {:induction false} WindowCounts(window: seq<real>, all: seq<real>, now: real)
    requires WindowOf(window, all, now) && Sorted(all)
    requires window != [] ==> now - window[0] <= 1.0
    ensures |window| == RecentCount(all, now)
    decreases |all|
  {
    if |window| == |all| {
      assert window == all;
      AllRecent(all, now);
    } else {
      var rest := all[1..];
      assert now - all[0] > 1.0;
      assert rest[|rest| - |window|..] == window;
      forall i | 0 <= i < |rest| - |window| ensures now - rest[i] > 1.0 {
        assert rest[i] == all[i + 1];
      }
      WindowCounts(window, rest, now);
    }
  }

  lemma PruneEnds(window: seq<real>, now: real)
    ensures Prune(window, now) != [] ==> now - Prune(window, now)[0] <= 1.0
  {
  }

  /** Whatever was pruned before, and by whichever thread, `health()` reports how
      many records and deliveries of this run are at most one second old. */
  lemma HealthRates(cfg: Config, w: World)
    requires WindowsInv(w) && ScaleInv(w)
    ensures
      var d := Next(cfg, w, ReadHealth).d;
      && |d.receiveTimes| == RecentCount(w.h.received, w.h.clock)
      && |d.deliveryTimes| == RecentCount(w.h.delivered, w.h.clock)
  {
    WindowsKept(cfg, w, ReadHealth);
    PruneEnds(w.d.receiveTimes, w.h.clock);
    PruneEnds(w.d.deliveryTimes, w.h.clock);
    var d := Next(cfg, w, ReadHealth).d;
    WindowCounts(d.receiveTimes, w.h.received, w.h.clock);
    WindowCounts(d.deliveryTimes, w.h.delivered, w.h.clock);
  }

  // ---------------------------------------------------------------------
  // Rate limit
  // ---------------------------------------------------------------------

  ghost predicate PaceInv(cfg: Config, w: World) {
    && Paced(cfg, w.h.paced, w.d.lastDeliveryAt)
    && (w.h.pending.Some? ==> w.h.pending.value.receivedAt > NEVER
                              && !TooSoon(cfg, w.d.lastDeliveryAt, w.h.pending.value.receivedAt))
  }

  lemma RecordKeepsPace(cfg: Config, w: World, r: RawRecord, at: real, w': World)
    requires Guard(cfg, w, Event.Record(r, at)) && PaceInv(cfg, w) && RecordTo(cfg, w, r, at, w')
    ensures PaceInv(cfg, w')
  {
  }

  lemma PaceKept(cfg: Config, w: World, e: Event)
    requires Guard(cfg, w, e) && PaceInv(cfg, w) && ScaleInv(w)
    ensures PaceInv(cfg, Next(cfg, w, e))
  {
    if e.Record? {
      RecordRelates(cfg, w, e.r, e.at);
      RecordKeepsPace(cfg, w, e.r, e.at, AfterRecord(cfg, w, e.r, e.at));
    }
  }

  /** Any stretch of T seconds of one run holds at most T * limit + 1 deliveries. */
  lemma {:induction false} RateBound(cfg: Config, ts: seq<real>, last: real, i: nat, j: nat)
    requires Paced(cfg, ts, last) && cfg.rateLimit > 0.0 && i <= j < |ts|
    ensures (j - i) as real <= (ts[j] - ts[i]) * cfg.rateLimit
    decreases j - i
  {
    if i < j {
      RateBound(cfg, ts, last, i, j - 1);
      var gap, limit := ts[j] - ts[j - 1], cfg.rateLimit;
      assert gap * limit >= 1.0 by {
        assert gap >= 1.0 / limit;
        assert (1.0 / limit) * limit == 1.0;
        assert (gap - 1.0 / limit) * limit >= 0.0;
      }
      assert (ts[j] - ts[i]) * limit == gap * limit + (ts[j - 1] - ts[i]) * limit;
    }
  }

  // ---------------------------------------------------------------------
  // Counters
  // ---------------------------------------------------------------------

  /** Reasons to keep a record from the callback, the rate limit apart. */
  predicate Withheld(cfg: Config, e: Entry) {
    || Has(e, IsDuplicate) || Has(e, IsOutOfOrder) || Has(e, IsStall) || Has(e, IsBackward)
    || (Has(e, IsError) && !cfg.deliverErrors)
  }

  function CountWithheld(cfg: Config, entries: seq<Entry>): nat {
    if entries == [] then 0
    else CountWithheld(cfg, entries[..|entries| - 1]) + if Withheld(cfg, entries[|entries| - 1]) then 1 else 0
  }

  /** Every record received is delivered, rate limited, refused by the callback,
      suppressed for its own sake, or the one in the callback now. */
  ghost predicate CountsInv(cfg: Config, w: World) {
    var records, events := w.d.health.records, w.d.health.events;
    && records.received == |w.h.entries|
    && records.received == events.delivered + records.rateLimited + events.callbackErrors
                           + CountWithheld(cfg, w.h.entries) + if w.h.pending.Some? then 1 else 0
  }

  lemma RecordKeepsCounts(cfg: Config, w: World, r: RawRecord, at: real, w': World)
    requires Guard(cfg, w, Event.Record(r, at)) && CountsInv(cfg, w) && RecordTo(cfg, w, r, at, w')
    ensures CountsInv(cfg, w')
  {
    assert w'.h.entries[..|w.h.entries|] == w.h.entries;
  }

  lemma {:induction false} CountsKept(cfg: Config, w: World, e: Event)
    requires Guard(cfg, w, e) && CountsInv(cfg, w) && ScaleInv(w)
    ensures CountsInv(cfg, Next(cfg, w, e))
  {
    if e.Record? {
      RecordRelates(cfg, w, e.r, e.at);
      RecordKeepsCounts(cfg, w, e.r, e.at, AfterRecord(cfg, w, e.r, e.at));
    }
  }

  /** What a record can be counted for. */
  datatype Feature = IsDuplicate | IsOutOfOrder | IsStall | IsBackward | IsRestart | IsWarning | IsError

  predicate Has(e: Entry, f: Feature) {
    match f
    case IsDuplicate => e.rdt.Duplicate?
    case IsOutOfOrder => e.rdt.OutOfOrder?
    case IsStall => e.ft.Stall?
    case IsBackward => e.ft.Backward?
    case IsRestart => e.ft.Restart?
    case IsWarning => e.severity.Warn?
    case IsError => e.severity.Serious?
  }

  function Counter(c: RecordCounts, f: Feature): nat {
    match f
    case IsDuplicate => c.duplicates
    case IsOutOfOrder => c.outOfOrder
    case IsStall => c.ftStalls
    case IsBackward => c.ftBackwards
    case IsRestart => c.ftRestarts
    case IsWarning => c.warnings
    case IsError => c.deviceErrors
  }

  function Tally(entries: seq<Entry>, f: Feature): nat {
    if entries == [] then 0
    else Tally(entries[..|entries| - 1], f) + if Has(entries[|entries| - 1], f) then 1 else 0
  }

  /** Each counter is the number of records, over the client's life, that it is
      named for. */
  ghost predicate TallyInv(w: World) {
    forall f :: Counter(w.d.health.records, f) == Tally(w.h.entries, f)
  }

  lemma CountMovesCounters(
    c: RecordCounts, raw: RawRecord, o: Observation, kind: FtKind, severity: Severity, f: Feature)
    ensures Counter(CountRecord(c, o, kind, severity), f)
         == Counter(c, f) + if Has(Entry(raw, o.kind, kind, severity), f) then 1 else 0
  {
  }

  lemma RecordCounters(cfg: Config, d: Data, r: RawRecord, at: real)
    requires d.health.configuration.Some?
    ensures
      var records := Observe(cfg, d, r, at).0.health.records;
      var o, kind, severity := RdtObserve(d.rdt, r.rdt).1, FtObserve(d.ft, r.ft).1, ClassifyStatus(r.status);
      var counted := CountRecord(d.health.records, o, kind, severity);
      records == counted.(rateLimited := records.rateLimited)
  {
  }

  lemma RecordMovesCounters(cfg: Config, w: World, r: RawRecord, at: real, f: Feature)
    requires w.d.health.configuration.Some? && ValidCalibration(w.d.health.configuration.value.calibration)
    ensures
      var e := Entry(r, RdtObserve(w.d.rdt, r.rdt).1.kind, FtObserve(w.d.ft, r.ft).1, ClassifyStatus(r.status));
      && Counter(AfterRecord(cfg, w, r, at).d.health.records, f)
         == Counter(w.d.health.records, f) + (if Has(e, f) then 1 else 0)
      && AfterRecord(cfg, w, r, at).h.entries == w.h.entries + [e]
  {
    RecordCounters(cfg, w.d, r, at);
    var o, kind, severity := RdtObserve(w.d.rdt, r.rdt).1, FtObserve(w.d.ft, r.ft).1, ClassifyStatus(r.status);
    CountMovesCounters(w.d.health.records, r, o, kind, severity, f);
  }

  lemma {:induction false} TallyKept(cfg: Config, w: World, e: Event)
    requires Guard(cfg, w, e) && TallyInv(w) && ScaleInv(w)
    ensures TallyInv(Next(cfg, w, e))
  {
    var w' := Next(cfg, w, e);
    forall f ensures Counter(w'.d.health.records, f) == Tally(w'.h.entries, f) {
      if e.Record? {
        RecordMovesCounters(cfg, w, e.r, e.at, f);
        assert w'.h.entries[..|w.h.entries|] == w.h.entries;
      } else {
        assert w'.h.entries == w.h.entries && w'.d.health.records == w.d.health.records;
      }
    }
  }

  // ---------------------------------------------------------------------
  // Order of delivery
  // ---------------------------------------------------------------------

  ghost predicate InOrder(handed: seq<Handed>) {
    forall i, j :: 0 <= i < j < |handed| ==> Before(handed[i].position, handed[j].position)
  }

  ghost predicate OrderInv(w: World) {
    && At(w.d.ft, w.h.position)
    && InOrder(w.h.handed)
    && (w.h.handed != [] ==> w.d.ft.hasLast)
    && (forall i :: 0 <= i < |w.h.handed| ==>
          && Wrap(w.h.handed[i].position.place) == w.h.handed[i].sample.raw.ft
          && (w.h.handed[i].position == w.h.position || Before(w.h.handed[i].position, w.h.position)))
  }

  lemma RecordKeepsOrder(cfg: Config, w: World, r: RawRecord, at: real, w': World)
    requires OrderInv(w) && RecordTo(cfg, w, r, at, w')
    ensures OrderInv(w')
  {
    AdvanceMoves(w.d.ft, w.h.position, r.ft);
  }

  /** Samples are handed out at strictly increasing positions of the sensor's
      life, across reconnects, biases and restarts of the client. */
  lemma OrderKept(cfg: Config, w: World, e: Event)
    requires Guard(cfg, w, e) && OrderInv(w) && ScaleInv(w)
    ensures OrderInv(Next(cfg, w, e))
  {
    if e.Record? {
      RecordRelates(cfg, w, e.r, e.at);
      RecordKeepsOrder(cfg, w, e.r, e.at, AfterRecord(cfg, w, e.r, e.at));
    }
  }

  // ---------------------------------------------------------------------
  // Calibration revisions
  // ---------------------------------------------------------------------

  ghost predicate ScaledBy(s: Sample, c: Calibration) {
    && ValidCalibration(c)
    && s.force == Scale(s.raw.force, c.countsPerForce) && s.torque == Scale(s.raw.torque, c.countsPerTorque)
    && s.forceUnit == c.forceUnit && s.torqueUnit == c.torqueUnit
  }

  ghost predicate ScaleInv(w: World) {
    var cs, configuration := w.h.calibrations, w.d.health.configuration;
    && (configuration.None? <==> cs == [])
    && (configuration.Some? ==>
          && configuration.value.revision == |cs| == 1 + w.d.health.events.calibrationChanges
          && configuration.value.calibration == cs[|cs| - 1])
    && (configuration.None? ==> w.d.health.events.calibrationChanges == 0)
    && (forall i :: 0 <= i < |cs| ==> ValidCalibration(cs[i]))
    && (forall i :: 0 <= i < |w.h.handed| ==> FaithfulHanded(w.h.handed[i], cs))
  }

  ghost predicate FaithfulHanded(x: Handed, cs: seq<Calibration>) {
    && 1 <= x.sample.revision <= |cs|
    && x.calibration == cs[x.sample.revision - 1]
    && ScaledBy(x.sample, x.calibration)
  }

  /** Component by component, without division. */
  ghost predicate HasUnits(s: Sample, c: Calibration) {
    && s.force.x * c.countsPerForce == s.raw.force.x as real
    && s.force.y * c.countsPerForce == s.raw.force.y as real
    && s.force.z * c.countsPerForce == s.raw.force.z as real
    && s.torque.x * c.countsPerTorque == s.raw.torque.x as real
    && s.torque.y * c.countsPerTorque == s.raw.torque.y as real
    && s.torque.z * c.countsPerTorque == s.raw.torque.z as real
    && s.forceUnit == c.forceUnit && s.torqueUnit == c.torqueUnit
  }

  lemma DividedTimes(v: int, counts: real)
    requires counts > 0.0
    ensures (v as real / counts) * counts == v as real
  {
  }

  lemma ScaledMeans(s: Sample, c: Calibration)
    requires ScaledBy(s, c)
    ensures HasUnits(s, c)
  {
    DividedTimes(s.raw.force.x, c.countsPerForce);
    DividedTimes(s.raw.force.y, c.countsPerForce);
    DividedTimes(s.raw.force.z, c.countsPerForce);
    DividedTimes(s.raw.torque.x, c.countsPerTorque);
    DividedTimes(s.raw.torque.y, c.countsPerTorque);
    DividedTimes(s.raw.torque.z, c.countsPerTorque);
  }

  lemma RecordKeepsScale(cfg: Config, w: World, r: RawRecord, at: real, w': World)
    requires ScaleInv(w) && RecordTo(cfg, w, r, at, w')
    ensures ScaleInv(w')
  {
    if w'.h.handed != w.h.handed {
      assert FaithfulHanded(w'.h.handed[|w.h.handed|], w.h.calibrations);
    }
  }

  lemma ConfigureKeepsScale(w: World, c: SensorConfiguration)
    requires ScaleInv(w) && ValidCalibration(c.calibration)
    ensures ScaleInv(AfterConfigure(w, c))
  {
    var w' := AfterConfigure(w, c);
    forall i | 0 <= i < |w.h.handed| ensures FaithfulHanded(w.h.handed[i], w'.h.calibrations) {
      assert FaithfulHanded(w.h.handed[i], w.h.calibrations);
    }
  }

  lemma ScaleKept(cfg: Config, w: World, e: Event)
    requires Guard(cfg, w, e) && ScaleInv(w)
    ensures ScaleInv(Next(cfg, w, e))
  {
    match e
    case Record(r, at) =>
      RecordRelates(cfg, w, r, at);
      RecordKeepsScale(cfg, w, r, at, AfterRecord(cfg, w, r, at));
    case Configure(c) => ConfigureKeepsScale(w, c);
    case _ =>
  }

  /** Two delivered samples with the same revision were scaled alike. */
  lemma RevisionIsFaithful(w: World, i: nat, j: nat)
    requires ScaleInv(w) && i < |w.h.handed| && j < |w.h.handed|
    requires w.h.handed[i].sample.revision == w.h.handed[j].sample.revision
    ensures w.h.handed[i].calibration == w.h.handed[j].calibration
    ensures HasUnits(w.h.handed[i].sample, w.h.handed[i].calibration)
    ensures HasUnits(w.h.handed[j].sample, w.h.handed[i].calibration)
  {
    assert FaithfulHanded(w.h.handed[i], w.h.calibrations);
    assert FaithfulHanded(w.h.handed[j], w.h.calibrations);
    ScaledMeans(w.h.handed[i].sample, w.h.handed[i].calibration);
    ScaledMeans(w.h.handed[j].sample, w.h.handed[j].calibration);
  }

  // ---------------------------------------------------------------------
  // Lost packets
  // ---------------------------------------------------------------------

  function RdtEnd(s: RdtState, trace: seq<RdtEvent>): RdtState
    decreases |trace|
  {
    if trace == [] then s
    else match trace[0]
      case Reset => RdtEnd(RdtReset(s), trace[1..])
      case Record(x) => RdtEnd(RdtObserve(s, Wrap(x)).0, trace[1..])
  }

  ghost predicate LostInv(w: World) {
    && w.d.rdt == RdtEnd(RDT_INITIAL, w.h.rdtTrace)
    && w.d.health.records.lost == Lost(Run32(RDT_INITIAL, w.h.rdtTrace))
  }

  lemma {:induction false} TraceGrows(s: RdtState, trace: seq<RdtEvent>, e: RdtEvent)
    ensures RdtEnd(s, trace + [e])
         == match e case Reset => RdtReset(RdtEnd(s, trace)) case Record(x) => RdtObserve(RdtEnd(s, trace), Wrap(x)).0
    ensures Lost(Run32(s, trace + [e]))
         == Lost(Run32(s, trace)) + if e.Record? then RdtObserve(RdtEnd(s, trace), Wrap(e.x)).1.gap else 0
    decreases |trace|
  {
    if trace == [] {
      assert trace + [e] == [e];
    } else {
      assert (trace + [e])[1..] == trace[1..] + [e];
      match trace[0]
      case Reset => TraceGrows(RdtReset(s), trace[1..], e);
      case Record(x) =>
        var (s', o) := RdtObserve(s, Wrap(x));
        TraceGrows(s', trace[1..], e);
        assert ([o] + Run32(s', trace[1..] + [e]))[1..] == Run32(s', trace[1..] + [e]);
        assert ([o] + Run32(s', trace[1..]))[1..] == Run32(s', trace[1..]);
    }
  }

  lemma {:induction false} RecordKeepsLost(cfg: Config, w: World, r: RawRecord, at: real, w': World)
    requires LostInv(w) && RecordTo(cfg, w, r, at, w')
    ensures LostInv(w')
  {
    TraceGrows(RDT_INITIAL, w.h.rdtTrace, RdtEvent.Record(r.rdt));
    assert Wrap(r.rdt) == r.rdt;
  }

  lemma {:induction false} LostKept(cfg: Config, w: World, e: Event)
    requires Guard(cfg, w, e) && LostInv(w) && ScaleInv(w)
    ensures LostInv(Next(cfg, w, e))
  {
    match e
    case Record(r, at) =>
      RecordRelates(cfg, w, r, at);
      RecordKeepsLost(cfg, w, r, at, AfterRecord(cfg, w, r, at));
    case BeginTracking => TraceGrows(RDT_INITIAL, w.h.rdtTrace, Reset);
    case Bias => TraceGrows(RDT_INITIAL, w.h.rdtTrace, Reset);
    case _ =>
  }

  /** `truth` is a reading of the trace in unbounded sequence numbers. */
  ghost predicate Unwraps(truth: seq<RdtEvent>, trace: seq<RdtEvent>) {
    |truth| == |trace| && forall i :: 0 <= i < |truth| ==>
      && (truth[i].Reset? <==> trace[i].Reset?)
      && (truth[i].Record? ==> Wrap(truth[i].x) == Wrap(trace[i].x))
  }

  lemma {:induction false} SameRun(s: RdtState, truth: seq<RdtEvent>, trace: seq<RdtEvent>)
    requires Unwraps(truth, trace)
    ensures Run32(s, truth) == Run32(s, trace)
    decreases |trace|
  {
    if trace != [] {
      assert Unwraps(truth[1..], trace[1..]);
      match trace[0]
      case Reset => SameRun(RdtReset(s), truth[1..], trace[1..]);
      case Record(x) => SameRun(RdtObserve(s, Wrap(x)).0, truth[1..], trace[1..]);
    }
  }

  /** `lost_count`, over the client's whole life, is the number of packets the
      sensor sent between the first and the last of each tracking epoch and the
      client never took, whenever the true numbers stay readable. */
  lemma LostIsExact(w: World, truth: seq<RdtEvent>)
    requires LostInv(w) && Unwraps(truth, w.h.rdtTrace) && AllReadable(Empty, truth)
    ensures w.d.health.records.lost == NeverSeen(truth)
  {
    SameRun(RDT_INITIAL, truth, w.h.rdtTrace);
    LostCountIsExact(RDT_INITIAL, truth);
  }

  // ---------------------------------------------------------------------
  // The latest sample, malformed datagrams, the last record
  // ---------------------------------------------------------------------

  function LastOf(samples: seq<Sample>): Option<Sample> {
    if samples == [] then None else Some(samples[|samples| - 1])
  }

  /** `latest_` is the last completed delivery of the run, and
      `consecutive_malformed_` counts its malformed datagrams in a row. */
  ghost predicate TailOk(d: Data, delivered: seq<real>, tail: Tail) {
    && d.latest == LastOf(tail.samples) && d.consecutiveMalformed == tail.streak
    && |tail.samples| == |delivered| && forall i :: 0 <= i < |delivered| ==> tail.samples[i].receivedAt == delivered[i]
  }

  ghost predicate TailInv(w: World) {
    TailOk(w.d, w.h.delivered, w.h.tail)
  }

  lemma RecordKeepsTail(cfg: Config, w: World, r: RawRecord, at: real, w': World)
    requires TailInv(w) && RecordTo(cfg, w, r, at, w')
    ensures TailInv(w')
  {
  }

  lemma OthersKeepTail(cfg: Config, w: World, e: Event)
    requires Guard(cfg, w, e) && TailInv(w) && !e.Record?
    ensures TailInv(Next(cfg, w, e))
  {
  }

  lemma TailKept(cfg: Config, w: World, e: Event)
    requires Guard(cfg, w, e) && TailInv(w) && ScaleInv(w)
    ensures TailInv(Next(cfg, w, e))
  {
    if e.Record? {
      RecordRelates(cfg, w, e.r, e.at);
      RecordKeepsTail(cfg, w, e.r, e.at, AfterRecord(cfg, w, e.r, e.at));
    } else {
      OthersKeepTail(cfg, w, e);
    }
  }

  /** The record shown in health is the last one counted. */
  predicate LastInv(w: World) {
    var last := w.d.health.last;
    if w.h.entries == [] then last == LastRecord(None, None, 0, None)
    else
      var e := w.h.entries[|w.h.entries| - 1];
      last == LastRecord(Some(e.raw.rdt), Some(e.raw.ft), e.raw.status, Some(e.ft))
  }

  lemma RecordKeepsLast(cfg: Config, w: World, r: RawRecord, at: real, w': World)
    requires RecordTo(cfg, w, r, at, w')
    ensures LastInv(w')
  {
  }

  lemma OthersKeepLast(cfg: Config, w: World, e: Event)
    requires Guard(cfg, w, e) && !e.Record?
    ensures Next(cfg, w, e).d.health.last == w.d.health.last && Next(cfg, w, e).h.entries == w.h.entries
  {
  }

  lemma LastKept(cfg: Config, w: World, e: Event)
    requires Guard(cfg, w, e) && LastInv(w) && ScaleInv(w)
    ensures LastInv(Next(cfg, w, e))
  {
    if e.Record? {
      RecordRelates(cfg, w, e.r, e.at);
      RecordKeepsLast(cfg, w, e.r, e.at, AfterRecord(cfg, w, e.r, e.at));
    } else {
      OthersKeepLast(cfg, w, e);
    }
  }

  // ---------------------------------------------------------------------
  // All of it, over every sequence of events
  // ---------------------------------------------------------------------

  ghost predicate StreamInv(cfg: Config, w: World) {
    && WindowsInv(w) && PaceInv(cfg, w) && ScaleInv(w) && CountsInv(cfg, w) && TallyInv(w) && OrderInv(w) && LostInv(w)
    && TailInv(w) && LastInv(w)
  }

  lemma StreamStarts(cfg: Config)
    ensures StreamInv(cfg, WORLD_INITIAL)
  {
  }

  lemma StreamKept(cfg: Config, w: World, e: Event)
    requires Guard(cfg, w, e) && StreamInv(cfg, w)
    ensures StreamInv(cfg, Next(cfg, w, e))
  {
    WindowsKept(cfg, w, e);
    PaceKept(cfg, w, e);
    ScaleKept(cfg, w, e);
    CountsKept(cfg, w, e);
    TallyKept(cfg, w, e);
    OrderKept(cfg, w, e);
    LostKept(cfg, w, e);
    TailKept(cfg, w, e);
    LastKept(cfg, w, e);
  }
}
