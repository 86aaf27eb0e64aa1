/**
 What the sensor sees: the commands of a client's whole life, cut into sessions.
 */
module ClientWire {
  import opened ClientData
  import opened ClientLifecycle
  import opened ClientControl
  import opened ClientRuns
  import opened ClientFlags

  // ---------------------------------------------------------------------
  // The grammar
  // ---------------------------------------------------------------------

  /** Inside a session: a valid record, a bias command that could not be sent, or
      one that was sent and followed by StartRealtime. */
  datatype Item = Rec | Refused | Biased(restarted: bool)

  datatype Segment =
    | StopCall
    | RunMark
    | StrayRecord                                    // handled after stop() closed its session
    | FailedOpen                                     // StartRealtime could not be sent
    | Session(items: seq<Item>, stop: Option<bool>)  // still open while stop is None

  function PrintItem(i: Item): seq<WireEvent> {
    match i
    case Rec => [SawRecord]
    case Refused => [Sent(SetSoftwareBias, false)]
    case Biased(restarted) => [Sent(SetSoftwareBias, true), Sent(StartRealtime, restarted)]
  }

  function PrintItems(items: seq<Item>): seq<WireEvent> {
    if items == [] then [] else PrintItems(items[..|items| - 1]) + PrintItem(items[|items| - 1])
  }

  function PrintSegment(g: Segment): seq<WireEvent> {
    match g
    case StopCall => [StopRequested]
    case RunMark => [RunOpened]
    case StrayRecord => [SawRecord]
    case FailedOpen => [Sent(StartRealtime, false)]
    case Session(items, stop) =>
      [Sent(StartRealtime, true)] + PrintItems(items) + if stop.Some? then [Sent(StopStreaming, stop.value)] else []
  }

  function Print(gs: seq<Segment>): seq<WireEvent> {
    if gs == [] then [] else Print(gs[..|gs| - 1]) + PrintSegment(gs[|gs| - 1])
  }

  /** The last session has not been stopped. */
  predicate Open(gs: seq<Segment>) {
    gs != [] && gs[|gs| - 1].Session? && gs[|gs| - 1].stop.None?
  }

  /** stop() has been called since a run was last opened. */
  predicate Halted(gs: seq<Segment>) {
    gs != [] && (gs[|gs| - 1].StopCall? || (!gs[|gs| - 1].RunMark? && Halted(gs[..|gs| - 1])))
  }

  predicate BiasFollowsRecord(items: seq<Item>) {
    items != [] ==> items[0].Rec?
  }

  /** The segment may follow the others: sessions do not overlap, none begins
      after stop(), only after stop() is a record handled outside its session, and
      a bias waits for a valid record of its own session. */
  predicate MayFollow(gs: seq<Segment>, g: Segment) {
    && !Open(gs)
    && (g.Session? || g.FailedOpen? ==> !Halted(gs))
    && (g.StrayRecord? ==> Halted(gs))
    && (g.Session? ==> BiasFollowsRecord(g.items))
  }

  predicate WellFormed(gs: seq<Segment>) {
    gs == [] || (WellFormed(gs[..|gs| - 1]) && MayFollow(gs[..|gs| - 1], gs[|gs| - 1]))
  }

  // ---------------------------------------------------------------------
  // Growing the wire
  // ---------------------------------------------------------------------

  lemma {:induction false} AddSegment(gs: seq<Segment>, g: Segment)
    requires WellFormed(gs) && MayFollow(gs, g)
    ensures WellFormed(gs + [g]) && Print(gs + [g]) == Print(gs) + PrintSegment(g)
    ensures Halted(gs + [g]) <==> g.StopCall? || (!g.RunMark? && Halted(gs))
  {
    assert (gs + [g])[..|gs|] == gs;
  }

  function ReplaceLast(gs: seq<Segment>, g: Segment): seq<Segment>
    requires gs != []
  {
    gs[..|gs| - 1] + [g]
  }

  lemma Reassociate(a: seq<WireEvent>, b: seq<WireEvent>, c: seq<WireEvent>)
    ensures a + (b + c) == (a + b) + c
  {
  }

  lemma {:induction false} GrowLast(gs: seq<Segment>, g: Segment, more: seq<WireEvent>)
    requires WellFormed(gs) && Open(gs) && g.Session? && BiasFollowsRecord(g.items)
    requires PrintSegment(g) == PrintSegment(gs[|gs| - 1]) + more
    ensures WellFormed(ReplaceLast(gs, g)) && Print(ReplaceLast(gs, g)) == Print(gs) + more
    ensures Halted(ReplaceLast(gs, g)) <==> Halted(gs)
  {
    var init := gs[..|gs| - 1];
    AddSegment(init, g);
    Reassociate(Print(init), PrintSegment(gs[|gs| - 1]), more);
  }

  function WithItem(g: Segment, i: Item): Segment
    requires g.Session?
  {
    g.(items := g.items + [i])
  }

  lemma {:induction false} AddItem(gs: seq<Segment>, i: Item)
    requires WellFormed(gs) && Open(gs) && (i.Rec? || gs[|gs| - 1].items != [])
    ensures
      var gs' := ReplaceLast(gs, WithItem(gs[|gs| - 1], i));
      && WellFormed(gs') && Open(gs') && Print(gs') == Print(gs) + PrintItem(i)
      && (Halted(gs') <==> Halted(gs)) && gs'[|gs'| - 1].items != []
  {
    var g := gs[|gs| - 1];
    var g' := WithItem(g, i);
    assert g'.items[..|g.items|] == g.items;
    assert PrintSegment(g') == PrintSegment(g) + PrintItem(i);
    GrowLast(gs, g', PrintItem(i));
  }

  lemma {:induction false} CloseLast(gs: seq<Segment>, ok: bool)
    requires WellFormed(gs) && Open(gs)
    ensures
      var gs' := ReplaceLast(gs, gs[|gs| - 1].(stop := Some(ok)));
      && WellFormed(gs') && !Open(gs') && Print(gs') == Print(gs) + [Sent(StopStreaming, ok)]
      && (Halted(gs') <==> Halted(gs))
  {
    GrowLast(gs, gs[|gs| - 1].(stop := Some(ok)), [Sent(StopStreaming, ok)]);
  }

  // ---------------------------------------------------------------------
  // Silence
  // ---------------------------------------------------------------------

  /** On the wire itself: stop() has been called since a run was last opened. */
  predicate WireHalted(wire: seq<WireEvent>) {
    wire != [] &&
    var last := wire[|wire| - 1];
    last.StopRequested? || (!last.RunOpened? && WireHalted(wire[..|wire| - 1]))
  }

  /** Nothing was ever sent while halted. */
  predicate Silent(wire: seq<WireEvent>) {
    wire == [] ||
    (Silent(wire[..|wire| - 1]) && (wire[|wire| - 1].Sent? ==> !WireHalted(wire[..|wire| - 1])))
  }

  /** Commands and records only. */
  predicate Plain(more: seq<WireEvent>) {
    forall i :: 0 <= i < |more| ==> more[i].Sent? || more[i].SawRecord?
  }

  lemma {:induction false} PlainKeepsSilence(wire: seq<WireEvent>, more: seq<WireEvent>)
    requires Silent(wire) && Plain(more) && (WireHalted(wire) ==> forall i :: 0 <= i < |more| ==> !more[i].Sent?)
    ensures Silent(wire + more) && (WireHalted(wire + more) <==> WireHalted(wire))
    decreases |more|
  {
    if more == [] {
      assert wire + more == wire;
    } else {
      var n := |more| - 1;
      PlainKeepsSilence(wire, more[..n]);
      assert (wire + more)[..|wire| + n] == wire + more[..n];
      assert (wire + more)[|wire| + n] == more[n];
    }
  }

  lemma {:induction false} PrintItemsIsPlain(items: seq<Item>)
    ensures Plain(PrintItems(items))
  {
    if items != [] {
      PrintItemsIsPlain(items[..|items| - 1]);
    }
  }

  lemma SegmentIsPlain(g: Segment)
    requires !g.StopCall? && !g.RunMark?
    ensures Plain(PrintSegment(g))
    ensures g.StrayRecord? ==> forall i :: 0 <= i < |PrintSegment(g)| ==> !PrintSegment(g)[i].Sent?
  {
    if g.Session? {
      PrintItemsIsPlain(g.items);
    }
  }

  lemma MarkIsHeard(wire: seq<WireEvent>, e: WireEvent)
    requires Silent(wire) && (e.StopRequested? || e.RunOpened?)
    ensures Silent(wire + [e]) && (WireHalted(wire + [e]) <==> e.StopRequested?)
  {
    assert (wire + [e])[..|wire|] == wire;
  }

  /** A well-formed wire is silent between a stop() and the next run. */
  lemma {:induction false} PrintIsSilent(gs: seq<Segment>)
    requires WellFormed(gs)
    ensures Silent(Print(gs)) && (WireHalted(Print(gs)) <==> Halted(gs))
  {
    if gs != [] {
      var init, g := gs[..|gs| - 1], gs[|gs| - 1];
      PrintIsSilent(init);
      if g.StopCall? {
        MarkIsHeard(Print(init), StopRequested);
      } else if g.RunMark? {
        MarkIsHeard(Print(init), RunOpened);
      } else {
        SegmentIsPlain(g);
        PlainKeepsSilence(Print(init), PrintSegment(g));
      }
    }
  }

  /** Nothing is sent after a stop() before a run is opened. */
  lemma {:induction false} SilentMeans(wire: seq<WireEvent>, i: nat, j: nat)
    requires Silent(wire) && i < j < |wire| && wire[i].StopRequested?
    requires forall k :: i < k < j ==> !wire[k].RunOpened?
    ensures !wire[j].Sent?
  {
    if j < |wire| - 1 {
      SilentMeans(wire[..|wire| - 1], i, j);
    } else {
      StillHalted(wire[..j], i);
    }
  }

  lemma {:induction false} StillHalted(wire: seq<WireEvent>, i: nat)
    requires i < |wire| && wire[i].StopRequested? && forall k :: i < k < |wire| ==> !wire[k].RunOpened?
    ensures WireHalted(wire)
  {
    if i < |wire| - 1 {
      StillHalted(wire[..|wire| - 1], i);
    }
  }

  // ---------------------------------------------------------------------
  // The invariant
  // ---------------------------------------------------------------------

  ghost predicate Explains(gs: seq<Segment>, d: Shared, stopping: bool) {
    && WellFormed(gs) && Print(gs) == d.wire
    && (Open(gs) <==> d.sessionStarted)
    && (Open(gs) && d.state.Streaming? ==> gs[|gs| - 1].items != [])
    && (Halted(gs) ==> stopping)
  }

  ghost predicate Explained(d: Shared, stopping: bool) {
    exists gs :: Explains(gs, d, stopping)
  }

  /** Whether stop() still stands once the `start` under way, if any, is undone. */
  predicate Standing(s: Core) {
    if FlagsAhead(s) then s.lock.value.section.saved.stopping else s.stopping
  }

  /** The worker has started the stream of its session. */
  predicate InStream(at: Point) {
    at.AtTracking? || at.AtReceive? || at.AtWaiting? || at.AtTimeout? || at.AtRecord? || Handing(at)
  }

  /** Only stop() closes a session under its worker. */
  predicate StrayOk(s: Core) {
    HasWorker(s) && InStream(WorkerOf(s, Owner(s).value).at) && !s.shared.sessionStarted ==> WireHalted(s.shared.wire)
  }

  ghost predicate WireInv(s: Core) {
    Explained(s.shared, Standing(s)) && StrayOk(s)
  }

  /** A step that sends nothing and opens no run. */
  predicate Quiet(d: Shared, stopping: bool, d': Shared, stopping': bool) {
    && d'.wire == d.wire && d'.sessionStarted == d.sessionStarted && (stopping ==> stopping')
    && (d'.sessionStarted && d'.state.Streaming? ==> d.state.Streaming?)
  }

  lemma QuietKeeps(d: Shared, stopping: bool, d': Shared, stopping': bool)
    requires Explained(d, stopping) && Quiet(d, stopping, d', stopping')
    ensures Explained(d', stopping')
  {
    var gs: seq<Segment> :| Explains(gs, d, stopping);
    assert Explains(gs, d', stopping');
  }

  lemma StreamKeeps(d: Shared, ok: bool)
    requires Explained(d, false) && !d.sessionStarted && !d.state.Streaming?
    ensures Explained(d.(wire := d.wire + [Sent(StartRealtime, ok)], sessionStarted := ok), false)
  {
    var gs: seq<Segment> :| Explains(gs, d, false);
    var g := if ok then Session([], None) else FailedOpen;
    AddSegment(gs, g);
    assert Explains(gs + [g], d.(wire := d.wire + [Sent(StartRealtime, ok)], sessionStarted := ok), false);
  }

  lemma RecordInside(gs: seq<Segment>, d: Shared, stopping: bool, deliver: bool)
    requires Explains(gs, d, stopping) && Open(gs)
    ensures Explained(d.(state := Streaming, pending := deliver, wire := d.wire + [SawRecord]), stopping)
  {
    AddItem(gs, Rec);
    assert Explains(ReplaceLast(gs, WithItem(gs[|gs| - 1], Rec)),
                    d.(state := Streaming, pending := deliver, wire := d.wire + [SawRecord]), stopping);
  }

  lemma {:induction false} RecordOutside(gs: seq<Segment>, d: Shared, stopping: bool, deliver: bool)
    requires Explains(gs, d, stopping) && !Open(gs) && Halted(gs)
    ensures Explained(d.(state := Streaming, pending := deliver, wire := d.wire + [SawRecord]), stopping)
  {
    AddSegment(gs, StrayRecord);
    assert Explains(gs + [StrayRecord],
                    d.(state := Streaming, pending := deliver, wire := d.wire + [SawRecord]), stopping);
  }

  lemma {:induction false} RecordKeeps(d: Shared, stopping: bool, deliver: bool)
    requires Explained(d, stopping) && (d.sessionStarted || WireHalted(d.wire))
    ensures Explained(d.(state := Streaming, pending := deliver, wire := d.wire + [SawRecord]), stopping)
  {
    var gs: seq<Segment> :| Explains(gs, d, stopping);
    if Open(gs) {
      RecordInside(gs, d, stopping, deliver);
    } else {
      PrintIsSilent(gs);
      RecordOutside(gs, d, stopping, deliver);
    }
  }

  lemma StopKeeps(d: Shared, stopping: bool, ok: bool)
    requires Explained(d, stopping)
    ensures Explained(SendStop(d, ok), stopping)
  {
    var gs: seq<Segment> :| Explains(gs, d, stopping);
    if Open(gs) {
      CloseLast(gs, ok);
      assert Explains(ReplaceLast(gs, gs[|gs| - 1].(stop := Some(ok))), SendStop(d, ok), stopping);
    } else {
      assert Explains(gs, SendStop(d, ok), stopping);
    }
  }

  lemma MarkKeeps(d: Shared, stopping: bool, g: Segment, d': Shared, stopping': bool)
    requires Explained(d, stopping) && !d.sessionStarted && (g.StopCall? || g.RunMark?)
    requires d'.wire == d.wire + PrintSegment(g) && !d'.sessionStarted && (g.StopCall? ==> stopping')
    ensures Explained(d', stopping')
  {
    var gs: seq<Segment> :| Explains(gs, d, stopping);
    AddSegment(gs, g);
    assert Explains(gs + [g], d', stopping');
  }

  lemma BiasKeeps(d: Shared, i: Item)
    requires Explained(d, false) && d.sessionStarted && d.state.Streaming? && !i.Rec?
    ensures Explained(d.(wire := d.wire + PrintItem(i)), false)
  {
    var gs: seq<Segment> :| Explains(gs, d, false);
    AddItem(gs, i);
    assert Explains(ReplaceLast(gs, WithItem(gs[|gs| - 1], i)), d.(wire := d.wire + PrintItem(i)), false);
  }

  // ---------------------------------------------------------------------
  // Every step keeps it
  // ---------------------------------------------------------------------

  predicate Talks(a: WorkAction) {
    a.StartStream? || a.HandlesRecord? || a.ClosesSession? || a.ClosesLast?
  }

  lemma MostWorkIsQuiet(cfg: Config, d: Shared, stopping: bool, at: Point, a: WorkAction)
    requires WorkerAt(at, a) && !Talks(a)
    ensures Quiet(d, stopping, NextShared(cfg, d, stopping, at, a), stopping)
  {
  }

  lemma TalkKeepsWire(cfg: Config, d: Shared, stopping: bool, at: Point, a: WorkAction)
    requires WorkerAt(at, a) && Talks(a) && StreamOk(d, at) && Explained(d, stopping)
    requires InStream(at) && !d.sessionStarted ==> WireHalted(d.wire)
    ensures Explained(NextShared(cfg, d, stopping, at, a), stopping)
  {
    match a
    case StartStream(ok) =>
      if !stopping {
        StreamKeeps(d, ok);
      }
    case HandlesRecord(verdict, _) => RecordKeeps(d, stopping, verdict.deliver);
    case ClosesSession(ok) => StopKeeps(d, stopping, ok);
    case ClosesLast(ok) => StopKeeps(d, stopping, ok);
  }

  /** How the worker enters and leaves its stream. */
  lemma StreamEnds(cfg: Config, d: Shared, stopping: bool, at: Point, a: WorkAction)
    requires WorkerAt(at, a) && !a.Ends? && InStream(NextPoint(cfg, d, stopping, at, a))
    ensures
      var d' := NextShared(cfg, d, stopping, at, a);
      || d'.sessionStarted
      || (InStream(at) && !d.sessionStarted && (d'.wire == d.wire || d'.wire == d.wire + [SawRecord]))
  {
  }

  lemma WorkerKeepsStray(cfg: Config, s: Core, t: Tid, a: WorkAction)
    requires ControlInv(s) && StrayOk(s) && WorkerCan(s, t, a)
    ensures StrayOk(WorkerDo(cfg, s, t, a))
  {
    var s', d, at := WorkerDo(cfg, s, t, a), s.shared, WorkerOf(s, t).at;
    assert Owner(s) == Some(t) == Owner(s');
    if HasWorker(s') && InStream(WorkerOf(s', t).at) && !s'.shared.sessionStarted {
      StreamEnds(cfg, d, s.stopping, at, a);
      assert (d.wire + [SawRecord])[..|d.wire|] == d.wire;
    }
  }

  lemma WorkerKeepsWire(cfg: Config, s: Core, t: Tid, a: WorkAction)
    requires ControlInv(s) && RunInv(cfg, s) && WireInv(s) && WorkerCan(s, t, a)
    ensures WireInv(WorkerDo(cfg, s, t, a))
  {
    assert Owner(s) == Some(t) && !IsOpening(s);
    var d, at := s.shared, WorkerOf(s, t).at;
    if Talks(a) {
      TalkKeepsWire(cfg, d, s.stopping, at, a);
    } else {
      MostWorkIsQuiet(cfg, d, s.stopping, at, a);
      QuietKeeps(d, s.stopping, NextShared(cfg, d, s.stopping, at, a), s.stopping);
    }
    WorkerKeepsStray(cfg, s, t, a);
  }

  /** The worker stays where it is, and so does the wire. */
  predicate SameStream(s: Core, s': Core) {
    && (HasWorker(s') ==> HasWorker(s) && WorkerOf(s', Owner(s').value) == WorkerOf(s, Owner(s).value))
    && s'.shared.wire == s.shared.wire && s'.shared.sessionStarted == s.shared.sessionStarted
  }

  lemma StartIsQuiet(cfg: Config, s: Core, t: Tid, a: StartAction)
    requires ControlInv(s) && RunInv(cfg, s) && FlagsOk(s) && StartCan(s, t, a) && !a.StartSpawns?
    ensures
      var s' := StartDo(cfg, s, t, a);
      Quiet(s.shared, Standing(s), s'.shared, Standing(s')) && SameStream(s, s')
  {
    var s' := StartDo(cfg, s, t, a);
    assert Owner(s).Some? ==> WorkerOf(s', Owner(s).value) == WorkerOf(s, Owner(s).value);
  }

  lemma SpawnKeepsWire(cfg: Config, s: Core, t: Tid, w: Tid)
    requires ControlInv(s) && RunInv(cfg, s) && WireInv(s) && StartCan(s, t, StartSpawns(w))
    ensures WireInv(StartDo(cfg, s, t, StartSpawns(w)))
  {
    var s' := StartDo(cfg, s, t, StartSpawns(w));
    assert !HasWorker(s);
    MarkKeeps(s.shared, Standing(s), RunMark, s'.shared, Standing(s'));
  }

  lemma StartKeepsWire(cfg: Config, s: Core, t: Tid, a: StartAction)
    requires ControlInv(s) && RunInv(cfg, s) && FlagsOk(s) && WireInv(s) && StartCan(s, t, a)
    ensures WireInv(StartDo(cfg, s, t, a))
  {
    if a.StartSpawns? {
      SpawnKeepsWire(cfg, s, t, a.w);
    } else {
      var s' := StartDo(cfg, s, t, a);
      StartIsQuiet(cfg, s, t, a);
      QuietKeeps(s.shared, Standing(s), s'.shared, Standing(s'));
    }
  }

  lemma UndoKeepsWire(cfg: Config, s: Core, t: Tid, a: UndoAction)
    requires ControlInv(s) && RunInv(cfg, s) && WireInv(s) && FlagsOk(s) && UndoCan(s, t, a)
    ensures WireInv(UndoDo(s, t, a))
  {
    var s' := UndoDo(s, t, a);
    assert !HasWorker(s) && !HasWorker(s');
    QuietKeeps(s.shared, Standing(s), s'.shared, Standing(s'));
  }

  lemma StopIsQuiet(s: Core, t: Tid, a: StopAction)
    requires ControlInv(s) && StopCan(s, t, a) && !a.StopCommands?
    ensures
      var s' := StopDo(s, t, a);
      Quiet(s.shared, Standing(s), s'.shared, Standing(s')) && SameStream(s, s')
  {
    var s' := StopDo(s, t, a);
    assert Owner(s).Some? ==> WorkerOf(s', Owner(s).value) == WorkerOf(s, Owner(s).value);
  }

  lemma StopCommandKeepsWire(s: Core, t: Tid, sent: bool)
    requires ControlInv(s) && WireInv(s) && StopCan(s, t, StopCommands(sent)) && s.stopping
    ensures WireInv(StopDo(s, t, StopCommands(sent)))
  {
    var s', d := StopDo(s, t, StopCommands(sent)), SendStop(s.shared, sent);
    StopKeeps(s.shared, true, sent);
    MarkKeeps(d, true, StopCall, s'.shared, true);
    assert s'.shared.wire == d.wire + [StopRequested];
  }

  lemma StopKeepsWire(s: Core, t: Tid, a: StopAction)
    requires ControlInv(s) && WireInv(s) && StopCan(s, t, a) && StopStands(s)
    ensures WireInv(StopDo(s, t, a))
  {
    var s' := StopDo(s, t, a);
    if a.StopCommands? {
      StopCommandKeepsWire(s, t, a.sent);
    } else {
      StopIsQuiet(s, t, a);
      QuietKeeps(s.shared, Standing(s), s'.shared, Standing(s'));
    }
  }

  lemma QueryIsQuiet(s: Core, t: Tid, a: QueryAction)
    requires QueryCan(s, t, a) && !(a.Biases? && MayBias(s))
    ensures QueryDo(s, t, a).shared == s.shared
  {
  }

  lemma QueryKeepsStray(s: Core, t: Tid, a: QueryAction)
    requires StrayOk(s) && QueryCan(s, t, a)
    ensures StrayOk(QueryDo(s, t, a)) && Standing(QueryDo(s, t, a)) == Standing(s)
  {
  }

  lemma QueryKeepsWire(cfg: Config, s: Core, t: Tid, a: QueryAction)
    requires ControlInv(s) && RunInv(cfg, s) && WireInv(s) && QueryCan(s, t, a)
    ensures WireInv(QueryDo(s, t, a))
  {
    QueryKeepsStray(s, t, a);
    if a.Biases? && MayBias(s) {
      assert HasWorker(s);
      BiasKeeps(s.shared, if a.biasOk then Biased(a.startOk) else Refused);
    } else {
      QueryIsQuiet(s, t, a);
    }
  }

  /** While stop() holds `lifecycle_mutex_`, `stopping_` stays set. */
  predicate StopStands(s: Core) {
    s.lock.Some? && s.lock.value.section.Stopping? ==> s.stopping
  }

  lemma StartKeepsStop(cfg: Config, s: Core, t: Tid, a: StartAction)
    requires ControlInv(s) && StopStands(s) && StartCan(s, t, a)
    ensures StopStands(StartDo(cfg, s, t, a))
  {
  }

  lemma StopKeepsStop(s: Core, t: Tid, a: StopAction)
    requires StopStands(s) && StopCan(s, t, a)
    ensures StopStands(StopDo(s, t, a))
  {
  }

  lemma StopStandsKept(cfg: Config, s: Core, t: Tid, a: Action)
    requires ControlInv(s) && StopStands(s) && Can(s, t, a)
    ensures StopStands(Do(cfg, s, t, a))
  {
    match a
    case Start(x) => StartKeepsStop(cfg, s, t, x);
    case Stop(x) => StopKeepsStop(s, t, x);
    case _ =>
  }

  lemma WireStarts()
    ensures WireInv(CORE_INITIAL) && StopStands(CORE_INITIAL)
  {
    assert Explains([], CORE_INITIAL.shared, false);
  }

  lemma WireKept(cfg: Config, s: Core, t: Tid, a: Action)
    requires ControlInv(s) && RunInv(cfg, s) && FlagsOk(s) && WireInv(s) && StopStands(s) && Can(s, t, a)
    ensures WireInv(Do(cfg, s, t, a))
  {
    match a
    case Work(x) => WorkerKeepsWire(cfg, s, t, x);
    case Start(x) => StartKeepsWire(cfg, s, t, x);
    case Undo(x) => UndoKeepsWire(cfg, s, t, x);
    case Stop(x) => StopKeepsWire(s, t, x);
    case Query(x) => QueryKeepsWire(cfg, s, t, x);
  }

  /** The commands of a client that has no worker are complete sessions. */
  lemma SessionsAreClosed(cfg: Config, s: Core)
    requires ControlInv(s) && RunInv(cfg, s) && WireInv(s) && !HasWorker(s)
    ensures exists gs :: WellFormed(gs) && Print(gs) == s.shared.wire && !Open(gs)
  {
    var gs: seq<Segment> :| Explains(gs, s.shared, Standing(s));
    assert WellFormed(gs) && Print(gs) == s.shared.wire && !Open(gs);
  }
}
