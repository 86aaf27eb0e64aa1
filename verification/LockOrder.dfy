/**
 The four mutexes of `Client::Impl`, method by method, and why they cannot lock
 each other up.

 `ClientLifecycle.dfy` takes whole critical sections as steps; here a step is one
 acquisition or release, so that nested sections of several threads overlap.
 */
module LockOrder {
  import opened ClientData

  datatype Lock = LifecycleMutex | CommandMutex | RecordMutex | DataMutex

  function Level(l: Lock): nat {
    match l
    case LifecycleMutex => 0
    case CommandMutex => 1
    case RecordMutex => 2
    case DataMutex => 3
  }

  /** A wait on a condition variable is a release and an acquisition. */
  datatype Op = Acquire(l: Lock) | Release(l: Lock) | Callback | Join(worker: Tid)

  /** The rest of a thread's work is in order: it acquires upwards only, releases
      what it holds, holds nothing across a callback or a join, and ends with
      nothing held. */
  predicate Ordered(rest: seq<Op>, held: set<Lock>) {
    if rest == [] then held == {}
    else
      match rest[0]
      case Acquire(l) => (forall h <- held :: Level(h) < Level(l)) && Ordered(rest[1..], held + {l})
      case Release(l) => l in held && Ordered(rest[1..], held - {l})
      case Callback => held == {} && Ordered(rest[1..], held)
      case Join(_) => held == {} && Ordered(rest[1..], held)
  }

  // ---------------------------------------------------------------------
  // The methods
  // ---------------------------------------------------------------------

  function Section(l: Lock): seq<Op> {
    [Acquire(l), Release(l)]
  }

  function Inside(l: Lock, body: seq<Op>): seq<Op> {
    [Acquire(l)] + body + [Release(l)]
  }

  function RecordAndData(): seq<Op> {
    Inside(RecordMutex, Section(DataMutex))
  }

  /** Paths that any thread may take, the worker inside its callback included: a
      worker's `stop` returns early and its `start` is refused
      (`ClientControl.EarlyReturnIsTheWorker`, `ClientControl.StartRefusesOnlyRunning`). */
  datatype Ask =
    StartRefused | StopReturnsEarly | Bias | WaitForFirstSample | ReadsHealth | ReadsLatest | AsksIfWorker

  /** Paths of `start` and `stop` that only other threads take. */
  datatype Control =
    | StartOpens | StartRollsBack(publishes: bool) | StartWaits | StartReaps(w: Tid)
    | StopIdle(marks: bool) | StopWaits | StopJoins(w: Tid, marks: bool)

  /** Paths of the worker; a delivery runs the calls made inside its callback. */
  datatype Work =
    | SetsState | AppliesConfiguration | StartsStream | ResetsTrackers | CountsDatagram | KeepsRecord
    | DeliversRecord(inside: seq<Ask>, throws: bool) | PublishesFault | BacksOff | ClosesSession | Finishes

  datatype Call = Asks(ask: Ask) | Controls(control: Control)

  datatype Program = CallerThread(calls: seq<Call>) | WorkerThread(work: seq<Work>)

  function AskLocks(a: Ask): seq<Op> {
    match a
    case StartRefused => Section(LifecycleMutex)
    case StopReturnsEarly => Inside(LifecycleMutex, Section(CommandMutex))
    case Bias => Inside(CommandMutex, RecordAndData())
    case WaitForFirstSample => Section(DataMutex) + Section(DataMutex)
    case ReadsHealth => Section(DataMutex)
    case ReadsLatest => Section(DataMutex)
    case AsksIfWorker => Section(LifecycleMutex)
  }

  function ControlLocks(c: Control): seq<Op> {
    match c
    case StartOpens => Inside(LifecycleMutex, Section(RecordMutex) + Section(DataMutex))
    case StartRollsBack(publishes) =>
      Inside(LifecycleMutex,
             Section(RecordMutex) + Section(DataMutex) + Section(RecordMutex) + Section(DataMutex)
             + if publishes then Section(DataMutex) else [])
    case StartWaits => Section(LifecycleMutex) + Section(LifecycleMutex)
    case StartReaps(w) => Section(LifecycleMutex) + [Join(w)] + Section(LifecycleMutex)
    case StopIdle(marks) => Inside(LifecycleMutex, Section(CommandMutex) + if marks then Section(DataMutex) else [])
    case StopWaits => Inside(LifecycleMutex, Section(CommandMutex)) + Section(LifecycleMutex)
    case StopJoins(w, marks) =>
      Inside(LifecycleMutex, Section(CommandMutex)) + [Join(w)]
      + Inside(LifecycleMutex, if marks then Section(DataMutex) else [])
  }

  function AsksLocks(asks: seq<Ask>): seq<Op> {
    if asks == [] then [] else AskLocks(asks[0]) + AsksLocks(asks[1..])
  }

  function WorkLocks(w: Work): seq<Op> {
    match w
    case SetsState => Section(DataMutex)
    case AppliesConfiguration => Section(DataMutex)
    case StartsStream => Section(CommandMutex)
    case ResetsTrackers => Section(RecordMutex)
    case CountsDatagram => Section(DataMutex)
    case KeepsRecord => RecordAndData()
    case DeliversRecord(inside, throws) =>
      RecordAndData() + [Callback] + AsksLocks(inside) + if throws then Section(DataMutex) else RecordAndData()
    case PublishesFault => Section(DataMutex)
    case BacksOff => Section(DataMutex) + Section(DataMutex) + Section(DataMutex)
    case ClosesSession => Section(CommandMutex)
    case Finishes => Section(CommandMutex) + Section(DataMutex)
  }

  function CallLocks(c: Call): seq<Op> {
    match c
    case Asks(a) => AskLocks(a)
    case Controls(x) => ControlLocks(x)
  }

  function CallsLocks(calls: seq<Call>): seq<Op> {
    if calls == [] then [] else CallLocks(calls[0]) + CallsLocks(calls[1..])
  }

  function WorksLocks(work: seq<Work>): seq<Op> {
    if work == [] then [] else WorkLocks(work[0]) + WorksLocks(work[1..])
  }

  function ProgramLocks(p: Program): seq<Op> {
    match p
    case CallerThread(calls) => CallsLocks(calls)
    case WorkerThread(work) => WorksLocks(work)
  }

  // ---------------------------------------------------------------------
  // Every path is in order
  // ---------------------------------------------------------------------

  lemma {:induction false} SectionsCompose(p: seq<Op>, q: seq<Op>, held: set<Lock>)
    requires Ordered(p, held) && Ordered(q, {})
    ensures Ordered(p + q, held)
    decreases |p|
  {
    if p == [] {
      assert p + q == q;
    } else {
      assert (p + q)[1..] == p[1..] + q;
      match p[0]
      case Acquire(l) => SectionsCompose(p[1..], q, held + {l});
      case Release(l) => SectionsCompose(p[1..], q, held - {l});
      case Callback => SectionsCompose(p[1..], q, held);
      case Join(_) => SectionsCompose(p[1..], q, held);
    }
  }

  /** Only locks above the level are used, and no callback or join occurs. */
  predicate Above(p: seq<Op>, level: nat) {
    forall i :: 0 <= i < |p| ==> (p[i].Acquire? || p[i].Release?) && Level(p[i].l) > level
  }

  /** A body of higher locks may run with a lock held. */
  lemma {:induction false} BodyInside(p: seq<Op>, l: Lock, held: set<Lock>)
    requires Ordered(p, held) && Above(p, Level(l)) && (forall h <- held :: Level(h) > Level(l))
    ensures Ordered(p + [Release(l)], held + {l})
    decreases |p|
  {
    var q := p + [Release(l)];
    if p == [] {
      assert q[0] == Release(l) && q[1..] == [];
      assert held + {l} - {l} == {};
    } else {
      assert q[0] == p[0] && q[1..] == p[1..] + [Release(l)];
      assert Above(p[1..], Level(l)) by {
        assert forall i :: 0 <= i < |p[1..]| ==> p[1..][i] == p[i + 1];
      }
      assert p[0].Acquire? || p[0].Release?;
      if p[0].Acquire? {
        BodyInside(p[1..], l, held + {p[0].l});
        assert held + {p[0].l} + {l} == held + {l} + {p[0].l};
      } else {
        BodyInside(p[1..], l, held - {p[0].l});
        assert (held - {p[0].l}) + {l} == (held + {l}) - {p[0].l};
      }
    }
  }

  lemma InsideIsOrdered(l: Lock, body: seq<Op>)
    requires Ordered(body, {}) && Above(body, Level(l))
    ensures Ordered(Inside(l, body), {})
  {
    BodyInside(body, l, {});
    var p := Inside(l, body);
    assert p[0] == Acquire(l) && p[1..] == body + [Release(l)];
    assert {} + {l} == {l};
  }

  lemma SectionIsOrdered(l: Lock)
    ensures Ordered(Section(l), {})
    ensures forall level: nat :: level < Level(l) ==> Above(Section(l), level)
  {
    InsideIsOrdered(l, []);
    assert Inside(l, []) == Section(l);
  }

  lemma PairsAreOrdered(p: seq<Op>, q: seq<Op>, level: nat)
    requires Ordered(p, {}) && Ordered(q, {})
    ensures Ordered(p + q, {})
    ensures Above(p, level) && Above(q, level) ==> Above(p + q, level)
  {
    SectionsCompose(p, q, {});
  }

  lemma OpIsOrdered(o: Op)
    requires o.Callback? || o.Join?
    ensures Ordered([o], {})
  {
    assert [o][1..] == [];
  }

  lemma RecordAndDataIsOrdered()
    ensures Ordered(RecordAndData(), {}) && Above(RecordAndData(), 1)
  {
    SectionIsOrdered(DataMutex);
    assert Above(Section(DataMutex), 2);
    InsideIsOrdered(RecordMutex, Section(DataMutex));
  }

  /** The joins of a program are of the given threads only. */
  predicate JoinsOnly(rest: seq<Op>, ws: set<Tid>) {
    forall i :: 0 <= i < |rest| && rest[i].Join? ==> rest[i].worker in ws
  }

  lemma SequenceIsFine(p: seq<Op>, q: seq<Op>, ws: set<Tid>)
    requires Ordered(p, {}) && Ordered(q, {}) && JoinsOnly(p, ws) && JoinsOnly(q, ws)
    ensures Ordered(p + q, {}) && JoinsOnly(p + q, ws)
  {
    SectionsCompose(p, q, {});
  }

  lemma AskIsOrdered(a: Ask)
    ensures Ordered(AskLocks(a), {}) && JoinsOnly(AskLocks(a), {})
  {
    var c, d, l := Section(CommandMutex), Section(DataMutex), Section(LifecycleMutex);
    SectionIsOrdered(CommandMutex);
    SectionIsOrdered(DataMutex);
    SectionIsOrdered(LifecycleMutex);
    match a
    case StopReturnsEarly =>
      assert Above(c, 0);
      InsideIsOrdered(LifecycleMutex, c);
    case Bias =>
      RecordAndDataIsOrdered();
      InsideIsOrdered(CommandMutex, RecordAndData());
    case WaitForFirstSample => PairsAreOrdered(d, d, 0);
    case _ =>
  }

  lemma StartIsOrdered(m: Control)
    requires m.StartOpens? || m.StartRollsBack? || m.StartWaits? || m.StartReaps?
    ensures Ordered(ControlLocks(m), {})
  {
    var r, d, l := Section(RecordMutex), Section(DataMutex), Section(LifecycleMutex);
    SectionIsOrdered(RecordMutex);
    SectionIsOrdered(DataMutex);
    SectionIsOrdered(LifecycleMutex);
    assert Above(r, 0) && Above(d, 0);
    PairsAreOrdered(r, d, 0);
    match m
    case StartOpens => InsideIsOrdered(LifecycleMutex, r + d);
    case StartRollsBack(publishes) =>
      PairsAreOrdered(r + d, r, 0);
      PairsAreOrdered(r + d + r, d, 0);
      var last := if publishes then d else [];
      PairsAreOrdered(r + d + r + d, last, 0);
      InsideIsOrdered(LifecycleMutex, r + d + r + d + last);
    case StartWaits => PairsAreOrdered(l, l, 0);
    case StartReaps(w) =>
      OpIsOrdered(Join(w));
      PairsAreOrdered(l, [Join(w)], 0);
      PairsAreOrdered(l + [Join(w)], l, 0);
  }

  lemma StopIsOrdered(m: Control)
    requires m.StopIdle? || m.StopWaits? || m.StopJoins?
    ensures Ordered(ControlLocks(m), {})
  {
    var c, d, l := Section(CommandMutex), Section(DataMutex), Section(LifecycleMutex);
    SectionIsOrdered(CommandMutex);
    SectionIsOrdered(DataMutex);
    SectionIsOrdered(LifecycleMutex);
    assert Above(c, 0) && Above(d, 0);
    InsideIsOrdered(LifecycleMutex, c);
    var first := Inside(LifecycleMutex, c);
    match m
    case StopIdle(marks) =>
      var last := if marks then d else [];
      PairsAreOrdered(c, last, 0);
      InsideIsOrdered(LifecycleMutex, c + last);
    case StopWaits => PairsAreOrdered(first, l, 0);
    case StopJoins(w, marks) =>
      var last := if marks then d else [];
      InsideIsOrdered(LifecycleMutex, last);
      OpIsOrdered(Join(w));
      PairsAreOrdered(first, [Join(w)], 0);
      PairsAreOrdered(first + [Join(w)], Inside(LifecycleMutex, last), 0);
  }

  /** The threads a control path joins. */
  function Joined(c: Control): set<Tid> {
    match c
    case StartReaps(w) => {w}
    case StopJoins(w, _) => {w}
    case _ => {}
  }

  lemma ControlJoins(c: Control)
    ensures JoinsOnly(ControlLocks(c), Joined(c))
  {
    match c
    case StartReaps(_) =>
    case StopJoins(_, marks) => assert forall o <- ControlLocks(c) :: o.Join? ==> o == Join(c.w);
    case _ => assert forall o <- ControlLocks(c) :: !o.Join?;
  }

  lemma ControlIsOrdered(c: Control)
    ensures Ordered(ControlLocks(c), {})
  {
    if c.StopIdle? || c.StopWaits? || c.StopJoins? {
      StopIsOrdered(c);
    } else {
      StartIsOrdered(c);
    }
  }

  lemma {:induction false} AsksAreOrdered(asks: seq<Ask>)
    ensures Ordered(AsksLocks(asks), {}) && JoinsOnly(AsksLocks(asks), {})
  {
    if asks != [] {
      AskIsOrdered(asks[0]);
      AsksAreOrdered(asks[1..]);
      SequenceIsFine(AskLocks(asks[0]), AsksLocks(asks[1..]), {});
    }
  }

  lemma DeliveryIsOrdered(inside: seq<Ask>, throws: bool)
    ensures
      var locks := WorkLocks(DeliversRecord(inside, throws));
      Ordered(locks, {}) && JoinsOnly(locks, {})
  {
    var both, last := RecordAndData(), if throws then Section(DataMutex) else RecordAndData();
    SectionIsOrdered(DataMutex);
    RecordAndDataIsOrdered();
    OpIsOrdered(Callback);
    AsksAreOrdered(inside);
    SequenceIsFine(both, [Callback], {});
    SequenceIsFine(both + [Callback], AsksLocks(inside), {});
    SequenceIsFine(both + [Callback] + AsksLocks(inside), last, {});
  }

  /** The worker keeps the order whatever is called inside its callback, and joins
      nobody. */
  lemma WorkIsOrdered(w: Work)
    ensures Ordered(WorkLocks(w), {}) && JoinsOnly(WorkLocks(w), {})
  {
    var c, d := Section(CommandMutex), Section(DataMutex);
    match w
    case DeliversRecord(inside, throws) => DeliveryIsOrdered(inside, throws);
    case BacksOff =>
      SectionIsOrdered(DataMutex);
      SequenceIsFine(d, d, {});
      SequenceIsFine(d + d, d, {});
    case Finishes =>
      SectionIsOrdered(CommandMutex);
      SectionIsOrdered(DataMutex);
      SequenceIsFine(c, d, {});
    case KeepsRecord => RecordAndDataIsOrdered();
    case ResetsTrackers => SectionIsOrdered(RecordMutex);
    case _ =>
      SectionIsOrdered(CommandMutex);
      SectionIsOrdered(DataMutex);
  }

  lemma {:induction false} WorksAreOrdered(work: seq<Work>)
    ensures Ordered(WorksLocks(work), {}) && JoinsOnly(WorksLocks(work), {})
  {
    if work != [] {
      WorkIsOrdered(work[0]);
      WorksAreOrdered(work[1..]);
      SequenceIsFine(WorkLocks(work[0]), WorksLocks(work[1..]), {});
    }
  }

  /** The calls join no thread but those given. */
  predicate CallsJoin(calls: seq<Call>, ws: set<Tid>) {
    forall i :: 0 <= i < |calls| && calls[i].Controls? ==> Joined(calls[i].control) <= ws
  }

  lemma {:induction false} CallsAreOrdered(calls: seq<Call>, ws: set<Tid>)
    requires CallsJoin(calls, ws)
    ensures Ordered(CallsLocks(calls), {}) && JoinsOnly(CallsLocks(calls), ws)
  {
    if calls != [] {
      var c := calls[0];
      match c {
        case Asks(a) => AskIsOrdered(a);
        case Controls(x) =>
          ControlIsOrdered(x);
          ControlJoins(x);
      }
      assert JoinsOnly(CallLocks(c), ws);
      CallsAreOrdered(calls[1..], ws);
      SequenceIsFine(CallLocks(c), CallsLocks(calls[1..]), ws);
    }
  }

  // ---------------------------------------------------------------------
  // Any number of threads
  // ---------------------------------------------------------------------

  datatype Thread = Thread(rest: seq<Op>, held: set<Lock>)

  type State = map<Tid, Thread>

  predicate JoinsNobody(rest: seq<Op>) {
    forall i :: 0 <= i < |rest| ==> !rest[i].Join?
  }

  predicate HoldsIt(s: State, t: Tid, l: Lock) {
    t in s && l in s[t].held
  }

  /** Each thread is in order, no lock is held twice, and workers, which are what
      is joined, join nobody. */
  ghost predicate Sound(s: State) {
    && (forall t {:trigger s[t]} :: t in s ==> Ordered(s[t].rest, s[t].held))
    && (forall t, u, l {:trigger HoldsIt(s, t, l), HoldsIt(s, u, l)} :: HoldsIt(s, t, l) && HoldsIt(s, u, l) ==> t == u)
    && (forall t, i {:trigger s[t].rest[i]} :: t in s && 0 <= i < |s[t].rest| && s[t].rest[i].Join? ==>
          s[t].rest[i].worker in s && JoinsNobody(s[s[t].rest[i].worker].rest))
  }

  ghost predicate CanStep(s: State, t: Tid) {
    t in s && s[t].rest != [] &&
    match s[t].rest[0]
    case Acquire(l) => forall u :: !HoldsIt(s, u, l)
    case Release(l) => true
    case Callback => true
    case Join(w) => w in s && s[w].rest == []
  }

  function DoStep(s: State, t: Tid): State
    requires t in s && s[t].rest != []
  {
    var rest := s[t].rest[1..];
    match s[t].rest[0]
    case Acquire(l) => s[t := Thread(rest, s[t].held + {l})]
    case Release(l) => s[t := Thread(rest, s[t].held - {l})]
    case Callback => s[t := s[t].(rest := rest)]
    case Join(_) => s[t := s[t].(rest := rest)]
  }

  lemma StepKeepsSound(s: State, t: Tid)
    requires Sound(s) && CanStep(s, t)
    ensures Sound(DoStep(s, t))
  {
    var s', rest := DoStep(s, t), s[t].rest;
    assert Ordered(s[t].rest, s[t].held);
    assert forall i :: 0 <= i < |s'[t].rest| ==> s'[t].rest[i] == rest[i + 1];
    forall u, v, l {:trigger HoldsIt(s', u, l), HoldsIt(s', v, l)} | HoldsIt(s', u, l) && HoldsIt(s', v, l)
      ensures u == v
    {
      assert u != t ==> HoldsIt(s, u, l);
      assert v != t ==> HoldsIt(s, v, l);
      assert (u == t || v == t) && !HoldsIt(s, t, l) ==> rest[0] == Acquire(l);
    }
    forall u, i {:trigger s'[u].rest[i]} | u in s' && 0 <= i < |s'[u].rest| && s'[u].rest[i].Join?
      ensures s'[u].rest[i].worker in s' && JoinsNobody(s'[s'[u].rest[i].worker].rest)
    {
      var w := s'[u].rest[i].worker;
      assert w in s && JoinsNobody(s[w].rest) by {
        assert u != t ==> s[u].rest[i].Join?;
        assert u == t ==> s[u].rest[i + 1].Join?;
      }
    }
  }

  /** A thread that holds a lock has yet to release it, and never waits in a join
      or a callback. */
  lemma HolderIsBusy(s: State, u: Tid, l: Lock)
    requires Sound(s) && HoldsIt(s, u, l)
    ensures s[u].rest != [] && !s[u].rest[0].Join? && !s[u].rest[0].Callback?
    ensures s[u].rest[0].Acquire? ==> Level(s[u].rest[0].l) > Level(l)
  {
    assert Ordered(s[u].rest, s[u].held);
  }

  ghost function Depth(s: State, t: Tid): nat
    requires t in s && s[t].rest != []
  {
    match s[t].rest[0]
    case Acquire(l) => 4 - Level(l)
    case Join(_) => 5
    case _ => 0
  }

  lemma {:induction false} SomebodyGoesOn(s: State, t: Tid)
    requires Sound(s) && t in s && s[t].rest != []
    ensures exists u :: CanStep(s, u)
    decreases Depth(s, t)
  {
    if !CanStep(s, t) {
      match s[t].rest[0]
      case Acquire(l) =>
        var u :| HoldsIt(s, u, l);
        HolderIsBusy(s, u, l);
        SomebodyGoesOn(s, u);
      case Join(w) =>
        assert s[t].rest[0].Join?;
        assert w in s && s[w].rest != [];
        assert JoinsNobody(s[w].rest) && !s[w].rest[0].Join?;
        SomebodyGoesOn(s, w);
      case _ =>
    }
  }

  // ---------------------------------------------------------------------
  // Threads that run the methods
  // ---------------------------------------------------------------------

  type Programs = map<Tid, Program>

  function Workers(ps: Programs): set<Tid> {
    set t | t in ps && ps[t].WorkerThread?
  }

  /** Whoever is joined is a worker. */
  ghost predicate Legal(ps: Programs) {
    forall t {:trigger ps[t]} :: t in ps && ps[t].CallerThread? ==> CallsJoin(ps[t].calls, Workers(ps))
  }

  function InitialState(ps: Programs): State {
    map t | t in ps :: Thread(ProgramLocks(ps[t]), {})
  }

  lemma InitialIsSound(ps: Programs)
    requires Legal(ps)
    ensures Sound(InitialState(ps))
  {
    var s := InitialState(ps);
    forall t {:trigger s[t]} | t in s
      ensures Ordered(s[t].rest, s[t].held) && JoinsOnly(s[t].rest, Workers(ps))
      ensures t in Workers(ps) ==> JoinsNobody(s[t].rest)
    {
      match ps[t]
      case CallerThread(calls) => CallsAreOrdered(calls, Workers(ps));
      case WorkerThread(work) => WorksAreOrdered(work);
    }
    forall t, i {:trigger s[t].rest[i]} | t in s && 0 <= i < |s[t].rest| && s[t].rest[i].Join?
      ensures s[t].rest[i].worker in s && JoinsNobody(s[s[t].rest[i].worker].rest)
    {
      var w := s[t].rest[i].worker;
      assert w in Workers(ps);
      assert w in s && s[w] == Thread(ProgramLocks(ps[w]), {});
    }
  }

  ghost predicate Goes(s: State, t: Tid, s': State) {
    CanStep(s, t) && s' == DoStep(s, t)
  }

  ghost predicate Reaches(ps: Programs, steps: seq<Tid>, s: State) {
    if steps == [] then s == InitialState(ps)
    else
      var t := steps[|steps| - 1];
      exists p :: Reaches(ps, steps[..|steps| - 1], p) && Goes(p, t, s)
  }

  lemma {:induction false} ReachedIsSound(ps: Programs, steps: seq<Tid>, s: State)
    requires Legal(ps) && Reaches(ps, steps, s)
    ensures Sound(s)
  {
    if steps == [] {
      InitialIsSound(ps);
    } else {
      var t := steps[|steps| - 1];
      var p :| Reaches(ps, steps[..|steps| - 1], p) && Goes(p, t, s);
      ReachedIsSound(ps, steps[..|steps| - 1], p);
      StepKeepsSound(p, t);
    }
  }

  /** No lock-up: whatever methods any number of threads run, however they
      interleave, and whatever the worker's callback calls, as long as any thread
      has work left some thread can go on. */
  lemma NobodyLocksUp(ps: Programs, steps: seq<Tid>, s: State, t: Tid)
    requires Legal(ps) && Reaches(ps, steps, s) && t in s && s[t].rest != []
    ensures exists u :: CanStep(s, u)
  {
    ReachedIsSound(ps, steps, s);
    SomebodyGoesOn(s, t);
  }
}
